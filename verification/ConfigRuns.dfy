/** The laws of the configuration: what a read returns after a write, that the redacted view may be saved back, and that the file holds no secret. */
module ConfigRuns {
  import opened Options
  import opened Text
  import opened ConfigStore

  // ---------------------------------------------------------------- trimming

  lemma {:induction false} TrimStartTwice(s: string)
    ensures TrimStart(TrimStart(s)) == TrimStart(s)
  {
    if s != "" && IsSpace(s[0]) { TrimStartTwice(s[1..]); }
  }

  lemma {:induction false} TrimTwice(s: string)
    ensures Trim(Trim(s)) == Trim(s)
  {
    TrimStartTwice(s);
    var a := TrimStart(s);
    var b := TrimEnd(a);
    assert TrimStart(b) == b by { assert b != "" ==> b[0] == a[0]; }
    assert TrimEnd(b) == b;
  }

  // ---------------------------------------------------------------- one secret

  function At(store: map<string, string>, ref: string): Option<string> {
    if ref in store then Some(store[ref]) else None
  }

  function Trimmed(v: Option<string>): string {
    Trim(v.GetOr(""))
  }

  /** What the store holds under a reference after putting this value away. */
  function StoredAt(available: bool, was: Option<string>, v: Option<string>): Option<string> {
    if Trimmed(v) == REDACTED then was
    else if Trimmed(v) == "" then None
    else if available then Some(Trimmed(v))
    else was
  }

  /** What of it stays in the file. */
  function LeftOf(available: bool, v: Option<string>): Option<string> {
    if available || Trimmed(v) == "" || Trimmed(v) == REDACTED then None else Some(Trimmed(v))
  }

  /** What a read then shows. */
  function Visible(available: bool, was: Option<string>, v: Option<string>): Option<string> {
    if Trimmed(v) == REDACTED then (if available && was.GetOr("") != "" then was else None)
    else if Trimmed(v) == "" then None
    else Some(Trimmed(v))
  }

  lemma {:induction false} OnePut(available: bool, store: map<string, string>, ref: string, v: Option<string>, other: string)
    ensures var p := StoreSecret(available, store, ref, v);
      p.left == LeftOf(available, v)
      && At(p.store, other) == if other == ref then StoredAt(available, At(store, ref), v) else At(store, other)
  {
  }

  // ---------------------------------------------------------------- references do not clash

  lemma {:induction false} RefsAreDistinct(f: Field, g: Field, id: string, other: string)
    ensures Ref(f) == Ref(g) ==> f == g
    ensures Ref(f) != TriggerRef(id)
    ensures TriggerRef(id) == TriggerRef(other) ==> id == other
    ensures IsOwn(Ref(f)) && IsOwn(TriggerRef(id))
  {
    assert TriggerRef(id)[11] == 'T';
    assert |Ref(f)| > 11 && Ref(f)[11] != 'T';
    assert TriggerRef(id)[19..] == id && TriggerRef(other)[19..] == other;
  }

  // ---------------------------------------------------------------- putting all of them away

  predicate DistinctFields(names: seq<Field>) {
    forall i, j :: 0 <= i < j < |names| ==> names[i] != names[j]
  }

  predicate UniqueTriggers(triggers: seq<Trigger>) {
    forall i, j :: 0 <= i < j < |triggers| ==> triggers[i].id != triggers[j].id
  }

  predicate UniqueMissions(missions: seq<Mission>) {
    forall i, j :: 0 <= i < j < |missions| ==> missions[i].id != missions[j].id
  }

  /** What putting fields away does to one of them, and that it leaves the others alone. */
  predicate Stripped(available: bool, store: map<string, string>, secrets: map<Field, string>, r: Fielded, f: Field, named: bool) {
    var was, v := At(store, Ref(f)), Lookup(secrets, f);
    At(r.store, Ref(f)) == (if named then StoredAt(available, was, v) else was)
    && Lookup(r.secrets, f) == if named then LeftOf(available, v) else None
  }

  lemma {:induction false} FieldStripped(available: bool, store: map<string, string>, secrets: map<Field, string>, names: seq<Field>, f: Field)
    requires DistinctFields(names)
    ensures Stripped(available, store, secrets, StripFields(available, store, secrets, names), f, f in names)
  {
    if names != [] {
      var n := |names| - 1;
      var r := StripFields(available, store, secrets, names[..n]);
      LastName(names, f);
      FieldStripped(available, store, secrets, names[..n], f);
      OnlyNamesLeft(available, store, secrets, names[..n]);
      OneFieldStripped(available, store, secrets, r, names[n], f, f in names[..n]);
      LastStripped(available, store, secrets, names);
    }
  }

  lemma {:induction false} LastName(names: seq<Field>, f: Field)
    requires DistinctFields(names) && names != []
    ensures var n := |names| - 1;
      DistinctFields(names[..n]) && names[n] !in names[..n] && (f in names <==> f in names[..n] || f == names[n])
  {
    assert names == names[..|names| - 1] + [names[|names| - 1]];
  }

  lemma {:induction false} LastStripped(available: bool, store: map<string, string>, secrets: map<Field, string>, names: seq<Field>)
    requires names != []
    ensures var n := |names| - 1;
      StripFields(available, store, secrets, names) == OneStripped(available, StripFields(available, store, secrets, names[..n]), secrets, names[n])
  {
  }

  /** One more of them, whatever the ones before did. */
  function OneStripped(available: bool, r: Fielded, secrets: map<Field, string>, g: Field): Fielded {
    var p := StoreSecret(available, r.store, Ref(g), Lookup(secrets, g));
    Fielded(p.store, if p.left.Some? then r.secrets[g := p.left.value] else r.secrets)
  }

  lemma {:induction false} OneFieldStripped(available: bool, store: map<string, string>, secrets: map<Field, string>, r: Fielded, g: Field, f: Field, named: bool)
    requires g !in r.secrets && (named ==> f != g) && Stripped(available, store, secrets, r, f, named)
    ensures Stripped(available, store, secrets, OneStripped(available, r, secrets, g), f, named || f == g)
  {
    OnePut(available, r.store, Ref(g), Lookup(secrets, g), Ref(f));
    RefsAreDistinct(f, g, "", "");
  }

  lemma {:induction false} OnlyNamesLeft(available: bool, store: map<string, string>, secrets: map<Field, string>, names: seq<Field>)
    ensures forall g :: g in StripFields(available, store, secrets, names).secrets ==> g in names
  {
    if names != [] {
      var n := |names| - 1;
      OnlyNamesLeft(available, store, secrets, names[..n]);
      assert names == names[..n] + [names[n]];
    }
  }

  lemma {:induction false} FieldsLeaveOthers(available: bool, store: map<string, string>, secrets: map<Field, string>, names: seq<Field>, ref: string)
    requires forall f :: f in names ==> Ref(f) != ref
    ensures At(StripFields(available, store, secrets, names).store, ref) == At(store, ref)
  {
    if names != [] {
      var n := |names| - 1;
      FieldsLeaveOthers(available, store, secrets, names[..n], ref);
      OnePut(available, StripFields(available, store, secrets, names[..n]).store, Ref(names[n]), Lookup(secrets, names[n]), ref);
    }
  }

  lemma {:induction false} TriggersLeaveOthers(available: bool, store: map<string, string>, triggers: seq<Trigger>, ref: string)
    requires forall i :: 0 <= i < |triggers| ==> TriggerRef(triggers[i].id) != ref
    ensures At(StripTriggers(available, store, triggers).store, ref) == At(store, ref)
  {
    if triggers != [] {
      var n := |triggers| - 1;
      TriggersLeaveOthers(available, store, triggers[..n], ref);
      OnePut(available, StripTriggers(available, store, triggers[..n]).store, TriggerRef(triggers[n].id), Some(triggers[n].secret), ref);
    }
  }

  /** The references of the endpoints before the last one are not the last one's. */
  lemma {:induction false} LastReferenceIsNew(available: bool, store: map<string, string>, triggers: seq<Trigger>)
    requires UniqueTriggers(triggers) && triggers != []
    ensures var n := |triggers| - 1; var ref := TriggerRef(triggers[n].id);
      At(StripTriggers(available, store, triggers[..n]).store, ref) == At(store, ref)
  {
    var n := |triggers| - 1;
    var id := triggers[n].id;
    forall i | 0 <= i < n ensures TriggerRef(triggers[..n][i].id) != TriggerRef(id) {
      RefsAreDistinct(WebhookSecret, WebhookSecret, triggers[i].id, id);
    }
    TriggersLeaveOthers(available, store, triggers[..n], TriggerRef(id));
  }

  /** One endpoint more: the others stay as they were put away, with their secrets. */
  lemma {:induction false} OneMoreTrigger(available: bool, store: map<string, string>, triggers: seq<Trigger>, other: string)
    requires triggers != []
    ensures var n := |triggers| - 1; var t := triggers[n];
      var r, r' := StripTriggers(available, store, triggers[..n]), StripTriggers(available, store, triggers);
      && r'.triggers == r.triggers + [t.(secret := LeftOf(available, Some(t.secret)).GetOr(""))]
      && At(r'.store, other) ==
           if other == TriggerRef(t.id) then StoredAt(available, At(r.store, other), Some(t.secret)) else At(r.store, other)
  {
    var t := triggers[|triggers| - 1];
    var r := StripTriggers(available, store, triggers[..|triggers| - 1]);
    OnePut(available, r.store, TriggerRef(t.id), Some(t.secret), other);
  }

  lemma {:induction false} TriggerLeft(available: bool, store: map<string, string>, triggers: seq<Trigger>, k: nat)
    requires k < |triggers|
    ensures var r := StripTriggers(available, store, triggers);
      |r.triggers| == |triggers|
      && r.triggers[k] == triggers[k].(secret := LeftOf(available, Some(triggers[k].secret)).GetOr(""))
  {
    var n := |triggers| - 1;
    OneMoreTrigger(available, store, triggers, "");
    StrippedLength(available, store, triggers[..n]);
    if k < n { TriggerLeft(available, store, triggers[..n], k); }
  }

  lemma {:induction false} OneMoreStored(available: bool, store: map<string, string>, triggers: seq<Trigger>,
                                         before: map<string, string>, other: string)
    requires triggers != [] && before == StripTriggers(available, store, triggers[..|triggers| - 1]).store
    ensures var last := triggers[|triggers| - 1];
      At(StripTriggers(available, store, triggers).store, other) ==
        if other == TriggerRef(last.id) then StoredAt(available, At(before, other), Some(last.secret)) else At(before, other)
  {
    OneMoreTrigger(available, store, triggers, other);
  }

  lemma {:induction false} UniqueBefore(triggers: seq<Trigger>, k: nat)
    requires UniqueTriggers(triggers) && k < |triggers|
    ensures var n := |triggers| - 1;
      UniqueTriggers(triggers[..n]) && (k < n ==> triggers[..n][k] == triggers[k] && triggers[k].id != triggers[n].id)
  {
  }

  lemma {:induction false} TriggerStored(available: bool, store: map<string, string>, triggers: seq<Trigger>, k: nat)
    requires UniqueTriggers(triggers) && k < |triggers|
    ensures var ref := TriggerRef(triggers[k].id);
      At(StripTriggers(available, store, triggers).store, ref) == StoredAt(available, At(store, ref), Some(triggers[k].secret))
  {
    var n, ref := |triggers| - 1, TriggerRef(triggers[k].id);
    var before := StripTriggers(available, store, triggers[..n]).store;
    UniqueBefore(triggers, k);
    OneMoreStored(available, store, triggers, before, ref);
    if k < n {
      RefsAreDistinct(WebhookSecret, WebhookSecret, triggers[n].id, triggers[k].id);
      TriggerStored(available, store, triggers[..n], k);
    } else {
      LastReferenceIsNew(available, store, triggers);
    }
  }

  lemma {:induction false} TriggerStripped(available: bool, store: map<string, string>, triggers: seq<Trigger>, k: nat)
    requires UniqueTriggers(triggers) && k < |triggers|
    ensures var r := StripTriggers(available, store, triggers); var t := triggers[k];
      |r.triggers| == |triggers| && r.triggers[k] == t.(secret := LeftOf(available, Some(t.secret)).GetOr(""))
      && At(r.store, TriggerRef(t.id)) == StoredAt(available, At(store, TriggerRef(t.id)), Some(t.secret))
  {
    TriggerLeft(available, store, triggers, k);
    TriggerStored(available, store, triggers, k);
  }

  lemma {:induction false} StrippedLength(available: bool, store: map<string, string>, triggers: seq<Trigger>)
    ensures |StripTriggers(available, store, triggers).triggers| == |triggers|
  {
    if triggers != [] { StrippedLength(available, store, triggers[..|triggers| - 1]); }
  }

  // ---------------------------------------------------------------- reading back what was put away

  /** What was persisted last is what is in the file. */
  predicate FileIsLast(s: State) {
    s.last.Some? ==> s.file == s.last
  }

  predicate Unambiguous(c: Config) {
    UniqueTriggers(c.triggers) && UniqueMissions(c.missions)
  }

  lemma {:induction false} PersistedFile(s: State, c: Config)
    requires FileIsLast(s)
    ensures var s' := Persisted(s, c);
      var fs := StripFields(s.available, s.store, c.secrets, SECRET_FIELDS);
      var ts := StripTriggers(s.available, fs.store, c.triggers);
      && s'.file == Some(Config(fs.secrets, ts.triggers, if s.kvOpen then Unstamped(c.missions) else c.missions, c.rest))
      && s'.store == ts.store && FileIsLast(s') && s'.available == s.available && s'.kvOpen == s.kvOpen
      && s'.kv == if s.kvOpen then Stamps(c.missions) else s.kv
  {
  }

  lemma {:induction false} FieldsAreDistinct()
    ensures DistinctFields(SECRET_FIELDS) && forall f: Field :: f in SECRET_FIELDS
  {
    forall f: Field ensures f in SECRET_FIELDS {
      match f
      case SlackSigningSecret => assert SECRET_FIELDS[0] == f;
      case SlackBotToken => assert SECRET_FIELDS[1] == f;
      case WebhookSecret => assert SECRET_FIELDS[2] == f;
      case GroqApiKey => assert SECRET_FIELDS[3] == f;
    }
  }

  lemma {:induction false} FieldShown(s: State, secrets: map<Field, string>, names: seq<Field>, f: Field)
    requires DistinctFields(names)
    ensures Lookup(ShownFields(s, secrets, names), f) ==
      if f in names && GetSecret(s, Ref(f)).GetOr("") != "" then GetSecret(s, Ref(f)) else Lookup(secrets, f)
  {
    if names != [] {
      var n := |names| - 1;
      FieldShown(s, secrets, names[..n], f);
      assert names == names[..n] + [names[n]];
    }
  }

  lemma {:induction false} FieldReadsBack(s: State, c: Config, f: Field)
    requires FileIsLast(s)
    ensures Lookup(View(Persisted(s, c)).secrets, f) == Visible(s.available, At(s.store, Ref(f)), Lookup(c.secrets, f))
    ensures At(Persisted(s, c).store, Ref(f)) == StoredAt(s.available, At(s.store, Ref(f)), Lookup(c.secrets, f))
  {
    PersistedFile(s, c);
    FieldsAreDistinct();
    FieldStripped(s.available, s.store, c.secrets, SECRET_FIELDS, f);
    var fs := StripFields(s.available, s.store, c.secrets, SECRET_FIELDS);
    forall i | 0 <= i < |c.triggers| ensures TriggerRef(c.triggers[i].id) != Ref(f) { RefsAreDistinct(f, f, c.triggers[i].id, ""); }
    TriggersLeaveOthers(s.available, fs.store, c.triggers, Ref(f));
    FieldShown(Persisted(s, c), fs.secrets, SECRET_FIELDS, f);
  }

  lemma {:induction false} TriggerReadsBack(s: State, c: Config, k: nat)
    requires FileIsLast(s) && UniqueTriggers(c.triggers) && k < |c.triggers|
    ensures var t := c.triggers[k]; var v := View(Persisted(s, c)).triggers;
      |v| == |c.triggers| && v[k] == t.(secret := Visible(s.available, At(s.store, TriggerRef(t.id)), Some(t.secret)).GetOr(""))
    ensures var t := c.triggers[k];
      At(Persisted(s, c).store, TriggerRef(t.id)) == StoredAt(s.available, At(s.store, TriggerRef(t.id)), Some(t.secret))
  {
    PersistedFile(s, c);
    var t := c.triggers[k];
    var fs := StripFields(s.available, s.store, c.secrets, SECRET_FIELDS);
    TriggerStripped(s.available, fs.store, c.triggers, k);
    forall f: Field ensures Ref(f) != TriggerRef(t.id) { RefsAreDistinct(f, f, t.id, ""); }
    FieldsLeaveOthers(s.available, s.store, c.secrets, SECRET_FIELDS, TriggerRef(t.id));
  }

  lemma {:induction false} StampOf(missions: seq<Mission>, k: nat)
    requires UniqueMissions(missions) && k < |missions|
    ensures var m := missions[k]; StampAt(Stamps(missions), m.id) == if HasStamp(m) then m.lastFiredAt else None
  {
    var n := |missions| - 1;
    if k < n {
      StampOf(missions[..n], k);
    } else {
      NoStampOf(missions[..n], missions[n].id);
    }
  }

  function StampAt(stamps: map<string, int>, id: string): Option<int> {
    if id in stamps then Some(stamps[id]) else None
  }

  lemma {:induction false} NoStampOf(missions: seq<Mission>, id: string)
    requires forall i :: 0 <= i < |missions| ==> missions[i].id != id
    ensures id !in Stamps(missions)
  {
    if missions != [] { NoStampOf(missions[..|missions| - 1], id); }
  }

  /** The missions come back as they were, stamps and all, wherever the stamps were kept. */
  lemma {:induction false} MissionsReadBack(s: State, c: Config)
    requires FileIsLast(s) && UniqueMissions(c.missions)
    ensures View(Persisted(s, c)).missions == c.missions
  {
    PersistedFile(s, c);
    if s.kvOpen {
      var v := View(Persisted(s, c)).missions;
      forall k | 0 <= k < |c.missions| ensures v[k] == c.missions[k] {
        StampOf(c.missions, k);
        assert v[k] == Stamped(Stamps(c.missions), Unstamped(c.missions)[k]);
      }
    }
  }

  // ---------------------------------------------------------------- when the file is not written

  /**
   A write that throws has changed the secrets all the same: over a file without plaintext and with encryption,
   each field then reads as if the write had succeeded, while the endpoints listed, the missions' plans and the
   rest are still those of the old file.
   */
  lemma {:induction false} FailedWriteChangesSecrets(s: State, c: Config, f: Field)
    requires FileIsLast(s) && s.available && s.file.Some? && !HasPlaintext(s.file.value)
    ensures var failed, written := View(Unwritten(s, c)), View(Persisted(s, c));
      && Normal(Lookup(failed.secrets, f)) == Normal(Lookup(written.secrets, f))
      && failed.rest == View(s).rest && |failed.triggers| == |View(s).triggers| && |failed.missions| == |View(s).missions|
      && (forall k :: 0 <= k < |failed.triggers| ==> failed.triggers[k].id == View(s).triggers[k].id)
      && (forall k :: 0 <= k < |failed.missions| ==> failed.missions[k].rest == View(s).missions[k].rest)
  {
    FieldAfterFailedWrite(s, c, f);
    FieldReadsBack(s, c, f);
  }

  lemma {:induction false} FieldAfterFailedWrite(s: State, c: Config, f: Field)
    requires FileIsLast(s) && s.available && s.file.Some? && !HasPlaintext(s.file.value)
    ensures Normal(Lookup(View(Unwritten(s, c)).secrets, f)) == Normal(Visible(true, At(s.store, Ref(f)), Lookup(c.secrets, f)))
  {
    var raw := s.file.value;
    FieldsAreDistinct();
    FieldReadsBack(s, c, f);
    FieldShown(Unwritten(s, c), raw.secrets, SECRET_FIELDS, f);
    FieldsShownOnly(Unwritten(s, c), raw, f, Lookup(c.secrets, f), At(s.store, Ref(f)));
  }

  lemma {:induction false} FieldsShownOnly(s: State, raw: Config, f: Field, v: Option<string>, was: Option<string>)
    requires s.available && !HasPlaintext(raw) && At(s.store, Ref(f)) == StoredAt(true, was, v)
    requires Lookup(ShownFields(s, raw.secrets, SECRET_FIELDS), f) ==
      if GetSecret(s, Ref(f)).GetOr("") != "" then GetSecret(s, Ref(f)) else Lookup(raw.secrets, f)
    ensures Normal(Lookup(ShownFields(s, raw.secrets, SECRET_FIELDS), f)) == Normal(Visible(true, was, v))
  {
    assert Trim("") == "";
    assert Lookup(raw.secrets, f).GetOr("") == "";
    TrimTwice(v.GetOr(""));
  }

  // ---------------------------------------------------------------- what a write means

  function Normal(v: Option<string>): Option<string> {
    if Trimmed(v) == "" then None else Some(Trimmed(v))
  }

  /** What the caller asks a field to be: what was shown, where the placeholder came back or nothing was said. */
  function Wanted(shown: Option<string>, patch: map<Field, Option<string>>, f: Field): Option<string> {
    if f in patch && patch[f] != Some(REDACTED) then patch[f] else shown
  }

  lemma {:induction false} PatchedField(current: map<Field, string>, patch: map<Field, Option<string>>, names: seq<Field>, f: Field)
    requires DistinctFields(names)
    ensures Lookup(PatchedFields(current, patch, names), f) == if f in names then Wanted(Lookup(current, f), patch, f) else None
  {
    if names != [] {
      var n := |names| - 1;
      PatchedField(current, patch, names[..n], f);
      assert names == names[..n] + [names[n]];
    }
  }

  lemma {:induction false} ReadingKeepsFileIsLast(s: State)
    requires FileIsLast(s)
    ensures FileIsLast(AfterRead(s)) && AfterRead(s).available == s.available && AfterRead(s).kvOpen == s.kvOpen
  {
    if s.file.Some? { PersistedFile(s, View(s)); }
  }

  /**
   After a write a field reads as the value supplied, trimmed; as what was shown before, where the placeholder
   came back or the field was not mentioned; and as unset, where a blank was supplied.
   */
  lemma {:induction false} FieldsReadAsWritten(s: State, p: Patch, f: Field)
    requires FileIsLast(s)
    requires Trimmed(Wanted(Lookup(View(s).secrets, f), p.secrets, f)) != REDACTED
    ensures Lookup(View(Written(s, p)).secrets, f) == Normal(Wanted(Lookup(View(s).secrets, f), p.secrets, f))
  {
    ReadingKeepsFileIsLast(s);
    FieldsAreDistinct();
    PatchedField(View(s).secrets, p.secrets, SECRET_FIELDS, f);
    FieldReadsBack(AfterRead(s), Patched(View(s), p), f);
  }

  /** A value that is the placeholder but for blanks. */
  predicate Padded(v: string) {
    v != REDACTED && Trim(v) == REDACTED
  }

  /** What is stored under this reference is no blank. */
  predicate NotBlank(s: State, ref: string) {
    ref in s.store ==> Trim(s.store[ref]) != ""
  }

  /** What a read shows of the store alone, once plaintext has been moved there. */
  function StoredAfterRead(s: State, ref: string): Option<string> {
    var v := GetSecret(AfterRead(s), ref);
    if v.GetOr("") != "" then v else None
  }

  lemma {:induction false} FieldAfterRead(s: State, f: Field)
    requires FileIsLast(s) && Trimmed(Lookup(View(s).secrets, f)) != REDACTED && NotBlank(s, Ref(f))
    ensures s.available && s.file.Some? ==> Normal(StoredAfterRead(s, Ref(f))) == Normal(Lookup(View(s).secrets, f))
    ensures !s.available ==> StoredAfterRead(s, Ref(f)) == None
    ensures s.file.None? ==> (Normal(StoredAfterRead(s, Ref(f))).Some? <==> s.available && Ref(f) in s.store)
  {
    ReadingKeepsFileIsLast(s);
    FieldsAreDistinct();
    if s.file.Some? {
      FieldShown(s, s.file.value.secrets, SECRET_FIELDS, f);
      if HasPlaintext(s.file.value) {
        FieldReadsBack(s, View(s), f);
        TrimTwice(Lookup(View(s).secrets, f).GetOr(""));
      }
    }
  }

  /**
   A padded placeholder is not taken for "unchanged": the field then reads as the store has it and not as it was
   shown. That is the same, blanks aside, exactly when encryption is available or nothing was shown, and, with no
   file yet, exactly when the store holds nothing readable.
   */
  lemma {:induction false} PaddedPlaceholder(s: State, p: Patch, f: Field)
    requires FileIsLast(s) && f in p.secrets && p.secrets[f].Some? && Padded(p.secrets[f].value)
    requires Trimmed(Lookup(View(s).secrets, f)) != REDACTED && NotBlank(s, Ref(f))
    ensures var before, after := Lookup(View(s).secrets, f), Lookup(View(Written(s, p)).secrets, f);
      && after == StoredAfterRead(s, Ref(f))
      && (Normal(after) == Normal(before) <==>
            if s.file.None? then !(s.available && Ref(f) in s.store) else s.available || Normal(before) == None)
  {
    ReadingKeepsFileIsLast(s);
    FieldsAreDistinct();
    PatchedField(View(s).secrets, p.secrets, SECRET_FIELDS, f);
    FieldReadsBack(AfterRead(s), Patched(View(s), p), f);
    FieldAfterRead(s, f);
  }

  predicate Shows(c: Config, id: string) {
    exists i :: 0 <= i < |c.triggers| && c.triggers[i].id == id
  }

  /** Of a stored value nobody shows more than the store answers. */
  function Answer(available: bool, was: Option<string>): Option<string> {
    if available && was.GetOr("") != "" then was else None
  }

  lemma {:induction false} AnswerIsStored(s: State, ref: string)
    ensures StoredAfterRead(s, ref) == Answer(AfterRead(s).available, At(AfterRead(s).store, ref))
  {
  }

  lemma {:induction false} AnswerOfMoved(was: Option<string>, v: string)
    requires Trim(v) != REDACTED
    ensures Trimmed(Answer(true, StoredAt(true, was, Some(v)))) == Trim(v)
  {
    TrimTwice(v);
    assert Trim("") == "";
  }

  lemma {:induction false} EndpointShown(s: State, k: nat)
    requires s.file.Some? && k < |View(s).triggers|
    ensures var raw := s.file.value.triggers[k]; var shown := Answer(s.available, At(s.store, TriggerRef(raw.id)));
      View(s).triggers[k] == raw.(secret := shown.GetOr(raw.secret))
  {
  }

  lemma {:induction false} ShownEndpointAfterRead(s: State, k: nat)
    requires FileIsLast(s) && s.file.Some? && s.available && UniqueTriggers(View(s).triggers) && k < |View(s).triggers|
    requires Trim(View(s).triggers[k].secret) != REDACTED
    ensures var t := View(s).triggers[k]; Trimmed(StoredAfterRead(s, TriggerRef(t.id))) == Trim(t.secret)
  {
    var t := View(s).triggers[k];
    ReadingKeepsFileIsLast(s);
    AnswerIsStored(s, TriggerRef(t.id));
    if HasPlaintext(s.file.value) {
      TriggerReadsBack(s, View(s), k);
      AnswerOfMoved(At(s.store, TriggerRef(t.id)), t.secret);
    } else {
      assert s.file.value.triggers[k].secret == "";
      EndpointShown(s, k);
      assert Trim("") == "";
    }
  }

  lemma {:induction false} UnshownEndpointAfterRead(s: State, id: string)
    requires FileIsLast(s) && !Shows(View(s), id) && NotBlank(s, TriggerRef(id))
    ensures PriorSecret(View(s).triggers, id) == ""
    ensures Trimmed(StoredAfterRead(s, TriggerRef(id))) != "" <==> s.available && TriggerRef(id) in s.store
  {
    assert Trim("") == "";
    ReadingKeepsFileIsLast(s);
    NoPrior(View(s).triggers, id);
    AnswerIsStored(s, TriggerRef(id));
    if s.file.Some? && HasPlaintext(s.file.value) { RemovedEndpointKeepsItsSecret(s, View(s), id); }
  }

  lemma {:induction false} EndpointAfterRead(s: State, id: string)
    requires FileIsLast(s) && UniqueTriggers(View(s).triggers) && NotBlank(s, TriggerRef(id))
    requires Trim(PriorSecret(View(s).triggers, id)) != REDACTED
    ensures s.available && Shows(View(s), id) ==>
      Trimmed(StoredAfterRead(s, TriggerRef(id))) == Trim(PriorSecret(View(s).triggers, id))
    ensures !s.available ==> StoredAfterRead(s, TriggerRef(id)) == None
    ensures !Shows(View(s), id) ==>
      PriorSecret(View(s).triggers, id) == "" && (Trimmed(StoredAfterRead(s, TriggerRef(id))) != "" <==> s.available && TriggerRef(id) in s.store)
  {
    ReadingKeepsFileIsLast(s);
    AnswerIsStored(s, TriggerRef(id));
    if Shows(View(s), id) {
      var k :| 0 <= k < |View(s).triggers| && View(s).triggers[k].id == id;
      PriorOf(View(s).triggers, k);
      if s.available { ShownEndpointAfterRead(s, k); }
    } else {
      UnshownEndpointAfterRead(s, id);
    }
  }

  lemma {:induction false} PaddedReadsTheStore(s: State, p: Patch, k: nat)
    requires FileIsLast(s)
    requires p.triggers.Some? && UniqueTriggers(p.triggers.value) && k < |p.triggers.value| && Padded(p.triggers.value[k].secret)
    ensures var id, v := p.triggers.value[k].id, View(Written(s, p)).triggers;
      |v| == |p.triggers.value| && v[k].id == id && v[k].secret == StoredAfterRead(s, TriggerRef(id)).GetOr("")
  {
    ReadingKeepsFileIsLast(s);
    var c := Patched(View(s), p);
    assert UniqueTriggers(c.triggers) && c.triggers[k] == p.triggers.value[k];
    TriggerReadsBack(AfterRead(s), c, k);
  }

  /**
   The same of an endpoint's secret. It is the one shown before, blanks aside, exactly when nothing was shown, if
   encryption is not available; and otherwise when the endpoint was shown or the store has no secret under its
   name: a padded placeholder brings a removed endpoint's secret back.
   */
  lemma {:induction false} PaddedEndpoint(s: State, p: Patch, k: nat)
    requires FileIsLast(s) && UniqueTriggers(View(s).triggers)
    requires p.triggers.Some? && UniqueTriggers(p.triggers.value) && k < |p.triggers.value| && Padded(p.triggers.value[k].secret)
    requires var id := p.triggers.value[k].id; NotBlank(s, TriggerRef(id)) && Trim(PriorSecret(View(s).triggers, id)) != REDACTED
    ensures var id, v := p.triggers.value[k].id, View(Written(s, p)).triggers; var prior := PriorSecret(View(s).triggers, id);
      && |v| == |p.triggers.value| && v[k].id == id && v[k].secret == StoredAfterRead(s, TriggerRef(id)).GetOr("")
      && (Trim(v[k].secret) == Trim(prior) <==>
            if !s.available then Trim(prior) == "" else Shows(View(s), id) || TriggerRef(id) !in s.store)
  {
    PaddedReadsTheStore(s, p, k);
    EndpointAfterRead(s, p.triggers.value[k].id);
    assert Trim("") == "";
  }

  function WantedSecret(shown: seq<Trigger>, t: Trigger): string {
    if t.secret == REDACTED then PriorSecret(shown, t.id) else t.secret
  }

  /** After a write that names the endpoints, each reads back with the secret supplied, trimmed, or with its previous one where the placeholder came back. */
  lemma {:induction false} TriggersReadAsWritten(s: State, p: Patch, k: nat)
    requires FileIsLast(s) && p.triggers.Some? && UniqueTriggers(p.triggers.value) && k < |p.triggers.value|
    requires Trim(WantedSecret(View(s).triggers, p.triggers.value[k])) != REDACTED
    ensures var v, t := View(Written(s, p)).triggers, p.triggers.value[k];
      |v| == |p.triggers.value| && v[k] == t.(secret := Trim(WantedSecret(View(s).triggers, t)))
  {
    ReadingKeepsFileIsLast(s);
    var c := Patched(View(s), p);
    assert UniqueTriggers(c.triggers);
    TriggerReadsBack(AfterRead(s), c, k);
  }

  // ---------------------------------------------------------------- tidy states

  /** A secret as the store keeps them. */
  predicate TidySecret(v: string) {
    v != "" && v != REDACTED && Trim(v) == v
  }

  predicate TidyConfig(c: Config) {
    && Unambiguous(c)
    && (forall f :: f in c.secrets ==> TidySecret(c.secrets[f]))
    && (forall i :: 0 <= i < |c.triggers| ==> c.triggers[i].secret == "" || TidySecret(c.triggers[i].secret))
  }

  predicate TidyStore(store: map<string, string>) {
    forall ref :: ref in store && IsOwn(ref) ==> TidySecret(store[ref])
  }

  /** Every state a fresh install can reach. */
  predicate Sound(s: State) {
    FileIsLast(s) && TidyStore(s.store) && TidyConfig(View(s))
  }

  lemma {:induction false} PutIsTidy(available: bool, store: map<string, string>, ref: string, v: Option<string>)
    requires TidyStore(store)
    ensures TidyStore(StoreSecret(available, store, ref, v).store)
  {
    TrimTwice(v.GetOr(""));
  }

  lemma {:induction false} StripIsTidy(available: bool, store: map<string, string>, secrets: map<Field, string>, names: seq<Field>)
    requires TidyStore(store)
    ensures TidyStore(StripFields(available, store, secrets, names).store)
  {
    if names != [] {
      var n := |names| - 1;
      StripIsTidy(available, store, secrets, names[..n]);
      PutIsTidy(available, StripFields(available, store, secrets, names[..n]).store, Ref(names[n]), Lookup(secrets, names[n]));
    }
  }

  lemma {:induction false} StripTriggersIsTidy(available: bool, store: map<string, string>, triggers: seq<Trigger>)
    requires TidyStore(store)
    ensures TidyStore(StripTriggers(available, store, triggers).store)
  {
    if triggers != [] {
      var n := |triggers| - 1;
      StripTriggersIsTidy(available, store, triggers[..n]);
      PutIsTidy(available, StripTriggers(available, store, triggers[..n]).store, TriggerRef(triggers[n].id), Some(triggers[n].secret));
    }
  }

  lemma {:induction false} VisibleIsTidy(available: bool, was: Option<string>, v: Option<string>)
    requires was.Some? ==> TidySecret(was.value)
    ensures var r := Visible(available, was, v); r.Some? ==> TidySecret(r.value)
  {
    TrimTwice(v.GetOr(""));
  }

  lemma {:induction false} PersistingIsSound(s: State, c: Config)
    requires FileIsLast(s) && TidyStore(s.store) && Unambiguous(c)
    ensures Sound(Persisted(s, c))
  {
    PersistedFile(s, c);
    StripIsTidy(s.available, s.store, c.secrets, SECRET_FIELDS);
    StripTriggersIsTidy(s.available, StripFields(s.available, s.store, c.secrets, SECRET_FIELDS).store, c.triggers);
    var v := View(Persisted(s, c));
    forall f | f in v.secrets ensures TidySecret(v.secrets[f]) {
      FieldReadsBack(s, c, f);
      RefsAreDistinct(f, f, "", "");
      VisibleIsTidy(s.available, At(s.store, Ref(f)), Lookup(c.secrets, f));
    }
    PersistedTriggersAreTidy(s, c);
    MissionsReadBack(s, c);
  }

  lemma {:induction false} PersistedTriggersAreTidy(s: State, c: Config)
    requires FileIsLast(s) && TidyStore(s.store) && UniqueTriggers(c.triggers)
    ensures var v := View(Persisted(s, c)).triggers;
      UniqueTriggers(v) && forall i :: 0 <= i < |v| ==> v[i].secret == "" || TidySecret(v[i].secret)
  {
    var v := View(Persisted(s, c)).triggers;
    PersistedFile(s, c);
    StrippedLength(s.available, StripFields(s.available, s.store, c.secrets, SECRET_FIELDS).store, c.triggers);
    forall i | 0 <= i < |v| ensures v[i].id == c.triggers[i].id && (v[i].secret == "" || TidySecret(v[i].secret)) {
      TriggerReadsBack(s, c, i);
      RefsAreDistinct(WebhookSecret, WebhookSecret, c.triggers[i].id, "");
      VisibleIsTidy(s.available, At(s.store, TriggerRef(c.triggers[i].id)), Some(c.triggers[i].secret));
    }
  }

  // ---------------------------------------------------------------- saving the redacted view

  /** The settings page hands the whole view back. */
  function PatchOf(c: Config): Patch {
    Patch(map f | f in c.secrets :: Some(c.secrets[f]), Some(c.triggers), Some(c.missions), Some(c.rest))
  }

  lemma {:induction false} PriorOf(triggers: seq<Trigger>, k: nat)
    requires UniqueTriggers(triggers) && k < |triggers|
    ensures PriorSecret(triggers, triggers[k].id) == triggers[k].secret
  {
    var n := |triggers| - 1;
    if k < n { PriorOf(triggers[..n], k); }
  }

  /** Saving what the settings page was shown, placeholders and all, changes nothing that is ever read. */
  lemma {:induction false} RedactedViewSavesBack(s: State)
    requires Sound(s)
    ensures View(Written(s, PatchOf(RedactedView(View(s))))) == View(s)
  {
    var c := View(s);
    var p := PatchOf(RedactedView(c));
    var after := View(Written(s, p));
    forall f: Field ensures Lookup(after.secrets, f) == Lookup(c.secrets, f) {
      assert Wanted(Lookup(c.secrets, f), p.secrets, f) == Lookup(c.secrets, f);
      FieldsReadAsWritten(s, p, f);
    }
    SameLookups(after.secrets, c.secrets);
    RedactedTriggersSaveBack(s);
    RestSavesBack(s, p);
  }

  lemma {:induction false} SameLookups(a: map<Field, string>, b: map<Field, string>)
    requires forall f: Field :: Lookup(a, f) == Lookup(b, f)
    ensures a == b
  {
    forall f: Field ensures f in a <==> f in b { assert Lookup(a, f) == Lookup(b, f); }
    forall f: Field | f in a ensures a[f] == b[f] { assert Lookup(a, f) == Lookup(b, f); }
  }

  lemma {:induction false} RedactedTriggerSavesBack(s: State, k: nat)
    requires Sound(s) && k < |View(s).triggers|
    ensures var v := View(Written(s, PatchOf(RedactedView(View(s))))).triggers;
      |v| == |View(s).triggers| && v[k] == View(s).triggers[k]
  {
    var c := View(s);
    var p := PatchOf(RedactedView(c));
    PriorOf(c.triggers, k);
    RedactedTriggerIsWanted(c, k);
    TriggersReadAsWritten(s, p, k);
  }

  /** What comes back for an endpoint stands for the secret it was shown for. */
  lemma {:induction false} RedactedTriggerIsWanted(c: Config, k: nat)
    requires TidyConfig(c) && k < |c.triggers|
    ensures var ts := RedactedView(c).triggers;
      && UniqueTriggers(ts) && |ts| == |c.triggers| && ts[k] == c.triggers[k].(secret := ts[k].secret)
      && WantedSecret(c.triggers, ts[k]) == c.triggers[k].secret
      && Trim(c.triggers[k].secret) == c.triggers[k].secret != REDACTED
  {
    PriorOf(c.triggers, k);
    assert Trim("") == "";
  }

  lemma {:induction false} RedactedTriggersSaveBack(s: State)
    requires Sound(s)
    ensures View(Written(s, PatchOf(RedactedView(View(s))))).triggers == View(s).triggers
  {
    var ts := View(s).triggers;
    forall k | 0 <= k < |ts|
      ensures var v := View(Written(s, PatchOf(RedactedView(View(s))))).triggers; |v| == |ts| && v[k] == ts[k]
    {
      RedactedTriggerSavesBack(s, k);
    }
    assert ts == [] ==> RedactedView(View(s)).triggers == [];
    if ts == [] { NoTriggers(s, PatchOf(RedactedView(View(s)))); }
  }

  lemma {:induction false} NoTriggers(s: State, p: Patch)
    requires FileIsLast(s) && p.triggers == Some([])
    ensures View(Written(s, p)).triggers == []
  {
    ReadingKeepsFileIsLast(s);
    PersistedFile(AfterRead(s), Patched(View(s), p));
  }

  /** Missions, stamps included, and everything else read back as written. */
  lemma {:induction false} RestSavesBack(s: State, p: Patch)
    requires FileIsLast(s) && UniqueMissions(p.missions.GetOr(View(s).missions))
    ensures View(Written(s, p)).missions == p.missions.GetOr(View(s).missions)
    ensures View(Written(s, p)).rest == p.rest.GetOr(View(s).rest)
  {
    ReadingKeepsFileIsLast(s);
    MissionsReadBack(AfterRead(s), Patched(View(s), p));
    PersistedFile(AfterRead(s), Patched(View(s), p));
  }

  // ---------------------------------------------------------------- every run

  function Install(available: bool, kvOpen: bool): State {
    State(available, kvOpen, map[], map[], None, None)
  }

  function RunFrom(s: State, ops: seq<Op>): State {
    if ops == [] then s else Step(RunFrom(s, ops[..|ops| - 1]), ops[|ops| - 1])
  }

  predicate UnambiguousPatches(ops: seq<Op>) {
    forall i :: 0 <= i < |ops| && ops[i].Write? ==>
      UniqueTriggers(ops[i].patch.triggers.GetOr([])) && UniqueMissions(ops[i].patch.missions.GetOr([]))
  }

  lemma {:induction false} StepIsSound(s: State, op: Op)
    requires Sound(s)
    requires op.Write? ==> UniqueTriggers(op.patch.triggers.GetOr([])) && UniqueMissions(op.patch.missions.GetOr([]))
    ensures Sound(Step(s, op))
  {
    match op
    case Read => ReadIsSound(s);
    case Write(p) =>
      ReadIsSound(s);
      PersistingIsSound(AfterRead(s), Patched(View(s), p));
    case Wipe =>
      PersistingIsSound(s.(store := Without(Without(s.store, "cfg:"), "int:mcp:")), DEFAULTS);
  }

  lemma {:induction false} ReadIsSound(s: State)
    requires Sound(s)
    ensures Sound(AfterRead(s))
  {
    if s.file.Some? { PersistingIsSound(s, View(s)); }
  }

  /** From a fresh install on, at every moment, the redacted view can be saved back without changing anything. */
  lemma {:induction false} SavingTheViewIsAlwaysSafe(available: bool, kvOpen: bool, ops: seq<Op>)
    requires UnambiguousPatches(ops)
    ensures var s := RunFrom(Install(available, kvOpen), ops);
      Sound(s) && View(Written(s, PatchOf(RedactedView(View(s))))) == View(s)
  {
    RunIsSound(available, kvOpen, ops);
    RedactedViewSavesBack(RunFrom(Install(available, kvOpen), ops));
  }

  lemma {:induction false} RunIsSound(available: bool, kvOpen: bool, ops: seq<Op>)
    requires UnambiguousPatches(ops)
    ensures Sound(RunFrom(Install(available, kvOpen), ops))
  {
    if ops != [] {
      var n := |ops| - 1;
      RunIsSound(available, kvOpen, ops[..n]);
      StepIsSound(RunFrom(Install(available, kvOpen), ops[..n]), ops[n]);
    }
  }

  // ---------------------------------------------------------------- nothing secret in the file

  lemma {:induction false} NothingLeft(store: map<string, string>, secrets: map<Field, string>, names: seq<Field>)
    ensures StripFields(true, store, secrets, names).secrets == map[]
  {
    if names != [] { NothingLeft(store, secrets, names[..|names| - 1]); }
  }

  predicate NoSecrets(triggers: seq<Trigger>) {
    forall i :: 0 <= i < |triggers| ==> triggers[i].secret == ""
  }

  lemma {:induction false} NoTriggerSecretLeft(store: map<string, string>, triggers: seq<Trigger>)
    ensures NoSecrets(StripTriggers(true, store, triggers).triggers)
  {
    if triggers != [] {
      var n := |triggers| - 1;
      var r := StripTriggers(true, store, triggers[..n]);
      var p := StoreSecret(true, r.store, TriggerRef(triggers[n].id), Some(triggers[n].secret));
      NoTriggerSecretLeft(store, triggers[..n]);
      assert p.left == None;
      assert StripTriggers(true, store, triggers).triggers == r.triggers + [triggers[n].(secret := p.left.GetOr(""))];
    }
  }

  lemma {:induction false} PersistingIsClean(s: State, c: Config)
    requires FileIsLast(s) && s.available
    ensures Persisted(s, c).file.Some? && !HasPlaintext(Persisted(s, c).file.value)
  {
    PersistedFile(s, c);
    NothingLeft(s.store, c.secrets, SECRET_FIELDS);
    NoTriggerSecretLeft(StripFields(true, s.store, c.secrets, SECRET_FIELDS).store, c.triggers);
  }

  /** While encryption is available, no operation leaves a secret in the file, whatever was in it before. */
  lemma {:induction false} FileHoldsNoSecret(s: State, op: Op)
    requires FileIsLast(s) && s.available
    ensures var s' := Step(s, op); FileIsLast(s') && s'.available && (s'.file.Some? ==> !HasPlaintext(s'.file.value))
  {
    ReadingKeepsFileIsLast(s);
    match op
    case Read =>
      if s.file.Some? && HasPlaintext(s.file.value) { PersistingIsClean(s, View(s)); }
    case Write(p) =>
      PersistingIsClean(AfterRead(s), Patched(View(s), p));
      PersistedFile(AfterRead(s), Patched(View(s), p));
    case Wipe =>
      var s1 := s.(store := Without(Without(s.store, "cfg:"), "int:mcp:"));
      PersistingIsClean(s1, DEFAULTS);
      PersistedFile(s1, DEFAULTS);
  }

  /** Moving plaintext on a read changes no secret but for blanks at its ends. */
  lemma {:induction false} MigrationKeepsSecrets(s: State, f: Field)
    requires FileIsLast(s) && s.file.Some? && HasPlaintext(s.file.value) && Trimmed(Lookup(View(s).secrets, f)) != REDACTED
    ensures Lookup(View(AfterRead(s)).secrets, f) == Normal(Lookup(View(s).secrets, f))
  {
    FieldReadsBack(s, View(s), f);
  }

  /** And so does each endpoint. */
  lemma {:induction false} MigrationKeepsEndpoints(s: State, k: nat)
    requires FileIsLast(s) && s.file.Some? && HasPlaintext(s.file.value) && UniqueTriggers(View(s).triggers)
    requires k < |View(s).triggers| && Trim(View(s).triggers[k].secret) != REDACTED
    ensures var ts, v := View(s).triggers, View(AfterRead(s)).triggers;
      |v| == |ts| && v[k] == ts[k].(secret := Trim(ts[k].secret))
  {
    TriggerReadsBack(s, View(s), k);
  }

  // ---------------------------------------------------------------- forgetting

  lemma {:induction false} StripDefaultsOnlyDeletes(available: bool, store: map<string, string>, names: seq<Field>)
    ensures StripFields(available, store, map[], names).store.Keys <= store.Keys
  {
    if names != [] {
      StripDefaultsOnlyDeletes(available, store, names[..|names| - 1]);
      assert Trim("") == "";
    }
  }

  /**
   A reset leaves no secret of the configuration in the store, of removed endpoints either, and no credential
   granted to an agent; every other secret stays as it was.
   */
  lemma {:induction false} ResetForgets(s: State, ref: string)
    ensures ref in Reset(s).store <==> ref in s.store && !IsOwn(ref) && !IsGrant(ref)
    ensures !IsOwn(ref) && !IsGrant(ref) ==> At(Reset(s).store, ref) == At(s.store, ref)
  {
    var store1 := Without(Without(s.store, "cfg:"), "int:mcp:");
    StripDefaultsOnlyDeletes(s.available, store1, SECRET_FIELDS);
    if !IsOwn(ref) {
      forall f: Field ensures Ref(f) != ref { RefsAreDistinct(f, f, "", ""); }
      FieldsLeaveOthers(s.available, store1, map[], SECRET_FIELDS, ref);
    }
  }

  /** Taking an endpoint off the list leaves its secret in the store: only a reset, or the endpoint's return, removes it. */
  lemma {:induction false} RemovedEndpointKeepsItsSecret(s: State, c: Config, id: string)
    requires forall i :: 0 <= i < |c.triggers| ==> c.triggers[i].id != id
    ensures At(Persisted(s, c).store, TriggerRef(id)) == At(s.store, TriggerRef(id))
  {
    forall f: Field ensures Ref(f) != TriggerRef(id) { RefsAreDistinct(f, f, id, ""); }
    FieldsLeaveOthers(s.available, s.store, c.secrets, SECRET_FIELDS, TriggerRef(id));
    forall i | 0 <= i < |c.triggers| ensures TriggerRef(c.triggers[i].id) != TriggerRef(id) { RefsAreDistinct(WebhookSecret, WebhookSecret, c.triggers[i].id, id); }
    TriggersLeaveOthers(s.available, StripFields(s.available, s.store, c.secrets, SECRET_FIELDS).store, c.triggers, TriggerRef(id));
  }

  lemma {:induction false} NoPrior(triggers: seq<Trigger>, id: string)
    requires forall i :: 0 <= i < |triggers| ==> triggers[i].id != id
    ensures PriorSecret(triggers, id) == ""
  {
    if triggers != [] { NoPrior(triggers[..|triggers| - 1], id); }
  }

  /** But a placeholder does not bring it back: an endpoint that was not shown and comes with one has no secret. */
  lemma {:induction false} PlaceholderRevivesNothing(s: State, p: Patch, k: nat)
    requires FileIsLast(s) && p.triggers.Some? && UniqueTriggers(p.triggers.value) && k < |p.triggers.value|
    requires p.triggers.value[k].secret == REDACTED
    requires forall i :: 0 <= i < |View(s).triggers| ==> View(s).triggers[i].id != p.triggers.value[k].id
    ensures var v := View(Written(s, p)).triggers; |v| == |p.triggers.value| && v[k].secret == ""
  {
    NoPrior(View(s).triggers, p.triggers.value[k].id);
    assert Trim("") == "";
    TriggersReadAsWritten(s, p, k);
  }
}
