/** Where secrets are kept and what is shown of them, told by their places in the store. */
module ConfigLaws {
  import opened Options
  import opened Text
  import opened ConfigStore
  import opened ConfigRuns

  const PLACES := map[
    SlackSigningSecret := "cfg:slackSigningSecret", SlackBotToken := "cfg:slackBotToken",
    WebhookSecret := "cfg:webhookSecret", GroqApiKey := "cfg:groqApiKey"]

  lemma {:induction false} EachHasItsPlace(f: Field)
    ensures f in PLACES && Ref(f) == PLACES[f]
  {
  }

  /** A read shows what the store has under the field's place, if it can be read and is not empty, and otherwise what the file has. */
  lemma {:induction false} ShownInFields(s: State, f: Field, v: string)
    requires s.file.Some?
    ensures f in PLACES
    ensures f in View(s).secrets && View(s).secrets[f] == v <==>
      if s.available && PLACES[f] in s.store && s.store[PLACES[f]] != "" then v == s.store[PLACES[f]]
      else f in s.file.value.secrets && s.file.value.secrets[f] == v
  {
    EachHasItsPlace(f);
    FieldsAreDistinct();
    FieldShown(s, s.file.value.secrets, SECRET_FIELDS, f);
  }

  /** The same of an endpoint; all else about it is the file's. */
  lemma {:induction false} ShownEndpointInFields(s: State, k: nat)
    requires s.file.Some? && k < |s.file.value.triggers|
    ensures |View(s).triggers| == |s.file.value.triggers|
    ensures var t, shown := s.file.value.triggers[k], View(s).triggers[k]; var place := "cfg:webhookTrigger:" + t.id;
      && shown.id == t.id && shown.rest == t.rest
      && shown.secret == if s.available && place in s.store && s.store[place] != "" then s.store[place] else t.secret
  {
  }

  /** A mission was last fired at the later of what the file and the stamps say, whichever says anything. */
  lemma {:induction false} ShownMissionInFields(s: State, k: nat)
    requires s.file.Some? && k < |s.file.value.missions|
    ensures |View(s).missions| == |s.file.value.missions|
    ensures var m, shown := s.file.value.missions[k], View(s).missions[k];
      && shown.id == m.id && shown.rest == m.rest
      && (!s.kvOpen || m.id !in s.kv ==> shown.lastFiredAt == m.lastFiredAt)
      && (s.kvOpen && m.id in s.kv && s.kv[m.id] > 0 ==>
            shown.lastFiredAt == Some(if m.lastFiredAt.Some? && m.lastFiredAt.value > s.kv[m.id] then m.lastFiredAt.value else s.kv[m.id]))
  {
  }

  /** Saved while the system encrypts, a secret is in the store, trimmed and under its own place, and not in the file. */
  lemma {:induction false} SecretIsPutAway(s: State, p: Patch, f: Field, v: string)
    requires FileIsLast(s) && s.available
    requires f in p.secrets && p.secrets[f] == Some(v) && Trim(v) != "***"
    ensures f in PLACES
    ensures var after := Written(s, p);
      && (Trim(v) != "" ==> PLACES[f] in after.store && after.store[PLACES[f]] == Trim(v))
      && (Trim(v) == "" ==> PLACES[f] !in after.store)
      && after.file.Some? && f !in after.file.value.secrets
  {
    EachHasItsPlace(f);
    FieldIsKept(s, p, f);
  }

  lemma {:induction false} FieldIsKept(s: State, p: Patch, f: Field)
    requires FileIsLast(s) && f in p.secrets && p.secrets[f] != Some(REDACTED)
    ensures var after := Written(s, p);
      && At(after.store, Ref(f)) == StoredAt(s.available, At(AfterRead(s).store, Ref(f)), p.secrets[f])
      && after.file.Some? && Lookup(after.file.value.secrets, f) == LeftOf(s.available, p.secrets[f])
  {
    ReadingKeepsFileIsLast(s);
    FieldsAreDistinct();
    var c := Patched(View(s), p);
    PatchedField(View(s).secrets, p.secrets, SECRET_FIELDS, f);
    FieldReadsBack(AfterRead(s), c, f);
    PersistedFile(AfterRead(s), c);
    FieldStripped(s.available, AfterRead(s).store, c.secrets, SECRET_FIELDS, f);
  }

  /** Saved while it does not, the secret stays in the file; an unset or blank one goes from both. */
  lemma {:induction false} SecretStaysInTheFile(s: State, p: Patch, f: Field, v: Option<string>)
    requires FileIsLast(s) && !s.available
    requires f in p.secrets && p.secrets[f] == v && Trim(v.GetOr("")) != "***"
    ensures f in PLACES
    ensures var after := Written(s, p);
      && after.file.Some?
      && (v.Some? && Trim(v.value) != "" ==> f in after.file.value.secrets && after.file.value.secrets[f] == Trim(v.value))
      && (v == None || Trim(v.value) == "" ==> f !in after.file.value.secrets && PLACES[f] !in after.store)
  {
    EachHasItsPlace(f);
    FieldIsKept(s, p, f);
    assert Trim("") == "";
  }

  /** An endpoint's secret is kept under its id. */
  lemma {:induction false} EndpointIsPutAway(s: State, p: Patch, k: nat)
    requires FileIsLast(s) && s.available && p.triggers.Some? && UniqueTriggers(p.triggers.value) && k < |p.triggers.value|
    requires Trim(p.triggers.value[k].secret) != "***"
    ensures var t, after := p.triggers.value[k], Written(s, p); var place := "cfg:webhookTrigger:" + t.id;
      && (Trim(t.secret) != "" ==> place in after.store && after.store[place] == Trim(t.secret))
      && (Trim(t.secret) == "" ==> place !in after.store)
      && after.file.Some? && |after.file.value.triggers| == |p.triggers.value|
      && after.file.value.triggers[k] == Trigger(t.id, "", t.rest)
  {
    ReadingKeepsFileIsLast(s);
    var c := Patched(View(s), p);
    var t := p.triggers.value[k];
    PlaceholderIsTrimmed();
    assert c.triggers[k] == t && UniqueTriggers(c.triggers);
    TriggerReadsBack(AfterRead(s), c, k);
    PersistedFile(AfterRead(s), c);
    var fs := StripFields(s.available, AfterRead(s).store, c.secrets, SECRET_FIELDS);
    TriggerLeft(s.available, fs.store, c.triggers, k);
  }

  lemma {:induction false} PlaceholderIsTrimmed()
    ensures Trim("***") == "***"
  {
  }

  /** Where there is a place for them, a write moves every stamp out of the file to it, and leaves all else of the missions. */
  lemma {:induction false} StampsAreMoved(s: State, c: Config, k: nat)
    requires FileIsLast(s) && s.kvOpen && UniqueMissions(c.missions) && k < |c.missions|
    ensures var after, m := Persisted(s, c), c.missions[k]; var stamped := m.lastFiredAt.Some? && m.lastFiredAt.value > 0;
      && after.file.Some? && |after.file.value.missions| == |c.missions|
      && after.file.value.missions[k] == (if stamped then Mission(m.id, None, m.rest) else m)
      && (m.id in after.kv <==> stamped) && (stamped ==> after.kv[m.id] == m.lastFiredAt.value)
  {
    PersistedFile(s, c);
    StampOf(c.missions, k);
  }

  /** After a reset a read shows no secret, endpoint or mission, and the rest as on a fresh install. */
  lemma {:induction false} ResetShowsDefaults(s: State, f: Field)
    requires FileIsLast(s)
    ensures var v := View(Step(s, Wipe)); f !in v.secrets && v.triggers == [] && v.missions == [] && v.rest == ""
  {
    var cleared := s.(store := Without(Without(s.store, "cfg:"), "int:mcp:"));
    assert Trim("") == "";
    FieldReadsBack(cleared, DEFAULTS, f);
    PersistedFile(cleared, DEFAULTS);
  }

  // ---------------------------------------------------------------- the redacted view

  predicate SameShape(c: Config, d: Config) {
    && c.missions == d.missions && c.rest == d.rest && c.secrets.Keys == d.secrets.Keys && |c.triggers| == |d.triggers|
    && (forall f :: f in c.secrets ==> (c.secrets[f] == "" <==> d.secrets[f] == ""))
    && forall i :: 0 <= i < |c.triggers| ==>
         c.triggers[i].id == d.triggers[i].id && c.triggers[i].rest == d.triggers[i].rest && (c.triggers[i].secret == "" <==> d.triggers[i].secret == "")
  }

  /** Two configurations are shown alike exactly if they differ in nothing but what their set secrets are. */
  lemma {:induction false} ViewTellsNoSecret(c: Config, d: Config)
    ensures RedactedView(c) == RedactedView(d) <==> SameShape(c, d)
  {
    var v, w := RedactedView(c), RedactedView(d);
    if SameShape(c, d) {
      assert v.secrets == w.secrets && v.triggers == w.triggers;
    }
    if v == w {
      assert c.secrets.Keys == v.secrets.Keys == w.secrets.Keys == d.secrets.Keys;
      forall f | f in c.secrets ensures c.secrets[f] == "" <==> d.secrets[f] == "" { assert v.secrets[f] == w.secrets[f]; }
      forall i | 0 <= i < |c.triggers|
        ensures c.triggers[i].id == d.triggers[i].id && c.triggers[i].rest == d.triggers[i].rest && (c.triggers[i].secret == "" <==> d.triggers[i].secret == "")
      {
        assert v.triggers[i] == w.triggers[i];
      }
    }
  }

  /** What is shown for a secret says whether it is set, and all else is shown as it is. */
  lemma {:induction false} ViewSaysWhichAreSet(c: Config)
    ensures var v := RedactedView(c);
      && v.missions == c.missions && v.rest == c.rest && |v.triggers| == |c.triggers|
      && (forall f :: f in v.secrets <==> f in c.secrets)
      && (forall f :: f in c.secrets && c.secrets[f] == "" ==> v.secrets[f] == "")
      && (forall f :: f in c.secrets && c.secrets[f] != "" ==> v.secrets[f] == "***")
      && forall i :: 0 <= i < |c.triggers| ==>
           v.triggers[i] == Trigger(c.triggers[i].id, if c.triggers[i].secret == "" then "" else "***", c.triggers[i].rest)
  {
  }
}
