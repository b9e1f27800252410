/**
 The configuration and its secrets: what `config.json` may hold, what goes to the encrypted store and to
 the key-value store instead, and how a read puts it all together again.

 The encrypted store is a map from reference to secret that can be read and written while the system
 offers encryption. A body written to the file is read back as it was.
 */
module ConfigStore {
  import opened Options
  import opened Text

  datatype Field = SlackSigningSecret | SlackBotToken | WebhookSecret | GroqApiKey

  const SECRET_FIELDS := [SlackSigningSecret, SlackBotToken, WebhookSecret, GroqApiKey]

  datatype Trigger = Trigger(id: string, secret: string, rest: string)
  datatype Mission = Mission(id: string, lastFiredAt: Option<int>, rest: string)

  /** A configuration: its secret fields that are set, its webhook triggers, its missions, and all the rest. */
  datatype Config = Config(secrets: map<Field, string>, triggers: seq<Trigger>, missions: seq<Mission>, rest: string)

  const DEFAULTS := Config(map[], [], [], "")

  const REDACTED := "***"

  datatype Patch = Patch(secrets: map<Field, Option<string>>, triggers: Option<seq<Trigger>>, missions: Option<seq<Mission>>, rest: Option<string>)

  datatype State = State(
    available: bool, kvOpen: bool, store: map<string, string>, kv: map<string, int>,
    file: Option<Config>, last: Option<Config>)

  // ---------------------------------------------------------------- references

  function Ref(f: Field): string {
    match f
    case SlackSigningSecret => "cfg:slackSigningSecret"
    case SlackBotToken => "cfg:slackBotToken"
    case WebhookSecret => "cfg:webhookSecret"
    case GroqApiKey => "cfg:groqApiKey"
  }

  function TriggerRef(id: string): string {
    "cfg:webhookTrigger:" + id
  }

  function GetSecret(s: State, ref: string): Option<string> {
    if ref in s.store && s.available then Some(s.store[ref]) else None
  }

  // ---------------------------------------------------------------- reading

  function ShownFields(s: State, secrets: map<Field, string>, names: seq<Field>): map<Field, string> {
    if names == [] then secrets
    else
      var f := names[|names| - 1];
      var r := ShownFields(s, secrets, names[..|names| - 1]);
      var stored := GetSecret(s, Ref(f));
      if stored.Some? && stored.value != "" then r[f := stored.value] else r
  }

  function ShownTrigger(s: State, t: Trigger): Trigger {
    var stored := GetSecret(s, TriggerRef(t.id));
    if stored.Some? && stored.value != "" then t.(secret := stored.value) else t
  }

  function ShownTriggers(s: State, triggers: seq<Trigger>): seq<Trigger> {
    seq(|triggers|, i requires 0 <= i < |triggers| => ShownTrigger(s, triggers[i]))
  }

  function Max(a: int, b: int): int {
    if a < b then b else a
  }

  function Stamped(kv: map<string, int>, m: Mission): Mission {
    var ts := Max(m.lastFiredAt.GetOr(0), if m.id in kv then kv[m.id] else 0);
    if ts != 0 then m.(lastFiredAt := Some(ts)) else m
  }

  function StampedAll(s: State, missions: seq<Mission>): seq<Mission> {
    if !s.kvOpen then missions else seq(|missions|, i requires 0 <= i < |missions| => Stamped(s.kv, missions[i]))
  }

  /** What a read of this file returns. */
  function Merged(s: State, c: Config): Config {
    Config(ShownFields(s, c.secrets, SECRET_FIELDS), ShownTriggers(s, c.triggers), StampedAll(s, c.missions), c.rest)
  }

  function View(s: State): Config {
    match s.file
    case None => DEFAULTS
    case Some(c) => Merged(s, c)
  }

  predicate HasPlaintext(c: Config) {
    (exists f :: f in c.secrets && c.secrets[f] != "") || exists i :: 0 <= i < |c.triggers| && c.triggers[i].secret != ""
  }

  // ---------------------------------------------------------------- writing

  /** A store after one secret was put away, and what of it has to stay in the file. */
  datatype Put = Put(store: map<string, string>, left: Option<string>)

  function StoreSecret(available: bool, store: map<string, string>, ref: string, value: Option<string>): Put {
    var v := Trim(value.GetOr(""));
    if v == REDACTED then Put(store, None)
    else if v == "" then Put(store - {ref}, None)
    else if available then Put(store[ref := v], None)
    else Put(store, Some(v))
  }

  function Lookup(secrets: map<Field, string>, f: Field): Option<string> {
    if f in secrets then Some(secrets[f]) else None
  }

  datatype Fielded = Fielded(store: map<string, string>, secrets: map<Field, string>)

  function StripFields(available: bool, store: map<string, string>, secrets: map<Field, string>, names: seq<Field>): Fielded {
    if names == [] then Fielded(store, map[])
    else
      var f := names[|names| - 1];
      var r := StripFields(available, store, secrets, names[..|names| - 1]);
      var p := StoreSecret(available, r.store, Ref(f), Lookup(secrets, f));
      Fielded(p.store, if p.left.Some? then r.secrets[f := p.left.value] else r.secrets)
  }

  datatype Triggered = Triggered(store: map<string, string>, triggers: seq<Trigger>)

  function StripTriggers(available: bool, store: map<string, string>, triggers: seq<Trigger>): Triggered {
    if triggers == [] then Triggered(store, [])
    else
      var t := triggers[|triggers| - 1];
      var r := StripTriggers(available, store, triggers[..|triggers| - 1]);
      var p := StoreSecret(available, r.store, TriggerRef(t.id), Some(t.secret));
      Triggered(p.store, r.triggers + [t.(secret := p.left.GetOr(""))])
  }

  predicate HasStamp(m: Mission) {
    m.lastFiredAt.Some? && m.lastFiredAt.value > 0
  }

  function Stamps(missions: seq<Mission>): map<string, int> {
    if missions == [] then map[]
    else
      var m := missions[|missions| - 1];
      var r := Stamps(missions[..|missions| - 1]);
      if HasStamp(m) then r[m.id := m.lastFiredAt.value] else r
  }

  function Unstamped(missions: seq<Mission>): seq<Mission> {
    seq(|missions|, i requires 0 <= i < |missions| => if HasStamp(missions[i]) then missions[i].(lastFiredAt := None) else missions[i])
  }

  function Persisted(s: State, c: Config): State {
    var fs := StripFields(s.available, s.store, c.secrets, SECRET_FIELDS);
    var ts := StripTriggers(s.available, fs.store, c.triggers);
    var body := Config(fs.secrets, ts.triggers, if s.kvOpen then Unstamped(c.missions) else c.missions, c.rest);
    var s1 := s.(store := ts.store, kv := if s.kvOpen then Stamps(c.missions) else s.kv);
    if s.last == Some(body) then s1 else s1.(file := Some(body), last := Some(body))
  }

  /** The write of the file threw: by then the secrets and the stamps have moved. */
  function Unwritten(s: State, c: Config): State {
    s.(store := Persisted(s, c).store, kv := Persisted(s, c).kv)
  }

  /** A read moves what plaintext it finds. */
  function AfterRead(s: State): State {
    if s.file.Some? && HasPlaintext(s.file.value) then Persisted(s, View(s)) else s
  }

  function PatchedFields(current: map<Field, string>, patch: map<Field, Option<string>>, names: seq<Field>): map<Field, string> {
    if names == [] then map[]
    else
      var f := names[|names| - 1];
      var r := PatchedFields(current, patch, names[..|names| - 1]);
      var v := if f in patch && patch[f] != Some(REDACTED) then patch[f] else Lookup(current, f);
      if v.Some? then r[f := v.value] else r
  }

  function PriorSecret(triggers: seq<Trigger>, id: string): string {
    if triggers == [] then ""
    else if triggers[|triggers| - 1].id == id then triggers[|triggers| - 1].secret
    else PriorSecret(triggers[..|triggers| - 1], id)
  }

  function PatchedTriggers(current: seq<Trigger>, triggers: seq<Trigger>): seq<Trigger> {
    seq(|triggers|, i requires 0 <= i < |triggers| =>
      if triggers[i].secret == REDACTED then triggers[i].(secret := PriorSecret(current, triggers[i].id)) else triggers[i])
  }

  function Patched(c: Config, p: Patch): Config {
    Config(
      PatchedFields(c.secrets, p.secrets, SECRET_FIELDS),
      match p.triggers case None => c.triggers case Some(ts) => PatchedTriggers(c.triggers, ts),
      p.missions.GetOr(c.missions),
      p.rest.GetOr(c.rest))
  }

  function Written(s: State, p: Patch): State {
    Persisted(AfterRead(s), Patched(View(s), p))
  }

  function IsOwn(ref: string): bool {
    "cfg:" <= ref
  }

  /** A credential granted to an agent for one of its servers. */
  predicate IsGrant(ref: string) {
    "int:mcp:" <= ref
  }

  function Without(store: map<string, string>, prefix: string): map<string, string> {
    map ref | ref in store && !(prefix <= ref) :: store[ref]
  }

  function Reset(s: State): State {
    Persisted(s.(store := Without(Without(s.store, "cfg:"), "int:mcp:")), DEFAULTS)
  }

  /** What the settings page is shown. */
  function RedactedView(c: Config): Config {
    c.(secrets := map f | f in c.secrets :: if c.secrets[f] != "" then REDACTED else "",
       triggers := seq(|c.triggers|, i requires 0 <= i < |c.triggers| =>
         c.triggers[i].(secret := if c.triggers[i].secret != "" then REDACTED else "")))
  }

  datatype Op = Read | Write(patch: Patch) | Wipe

  function Step(s: State, op: Op): State {
    match op
    case Read => AfterRead(s)
    case Write(p) => Written(s, p)
    case Wipe => Reset(s)
  }

  // ---------------------------------------------------------------- the object

  class SecretConfig {
    const available: bool
    const kvOpen: bool
    var store: map<string, string>
    var kv: map<string, int>
    var file: Option<Config>
    var lastPersisted: Option<Config>
    var secretCache: map<string, Option<string>>

    ghost function Model(): State
      reads this
    {
      State(available, kvOpen, store, kv, file, lastPersisted)
    }

    /** Whatever is cached is what the store would answer. */
    ghost predicate Valid()
      reads this
    {
      forall ref :: ref in secretCache ==> secretCache[ref] == GetSecret(Model(), ref)
    }

    constructor (s: State)
      ensures Valid() && Model() == s
    {
      available, kvOpen, store, kv, file, lastPersisted := s.available, s.kvOpen, s.store, s.kv, s.file, s.last;
      secretCache := map[];
    }

    method CachedSecret(ref: string) returns (v: Option<string>)
      requires Valid()
      modifies this`secretCache
      ensures Valid() && v == GetSecret(Model(), ref)
    {
      if ref !in secretCache {
        secretCache := secretCache[ref := if ref in store && available then Some(store[ref]) else None];
      }
      v := secretCache[ref];
    }

    method ShowTriggers(ts: seq<Trigger>) returns (triggers: seq<Trigger>)
      requires Valid()
      modifies this`secretCache
      ensures Valid() && triggers == ShownTriggers(Model(), ts)
    {
      triggers := [];
      for i := 0 to |ts|
        invariant Valid() && triggers == ShownTriggers(Model(), ts)[..i]
      {
        var stored := CachedSecret(TriggerRef(ts[i].id));
        triggers := triggers + [if stored.Some? && stored.value != "" then ts[i].(secret := stored.value) else ts[i]];
      }
    }

    method WithSecrets(c: Config) returns (out: Config)
      requires Valid()
      modifies this`secretCache
      ensures Valid() && out == c.(secrets := ShownFields(Model(), c.secrets, SECRET_FIELDS), triggers := ShownTriggers(Model(), c.triggers))
    {
      var secrets := c.secrets;
      for i := 0 to |SECRET_FIELDS|
        invariant Valid() && secrets == ShownFields(Model(), c.secrets, SECRET_FIELDS[..i])
      {
        assert SECRET_FIELDS[..i + 1][..i] == SECRET_FIELDS[..i];
        var stored := CachedSecret(Ref(SECRET_FIELDS[i]));
        if stored.Some? && stored.value != "" { secrets := secrets[SECRET_FIELDS[i] := stored.value]; }
      }
      assert SECRET_FIELDS[..|SECRET_FIELDS|] == SECRET_FIELDS;
      var triggers := ShowTriggers(c.triggers);
      out := c.(secrets := secrets, triggers := triggers);
    }

    method WithMissionStamps(c: Config) returns (out: Config)
      ensures out == c.(missions := StampedAll(Model(), c.missions))
    {
      if !kvOpen { return c; }
      var missions: seq<Mission> := [];
      for i := 0 to |c.missions|
        invariant missions == StampedAll(Model(), c.missions)[..i]
      {
        var m := c.missions[i];
        var filed, fired := m.lastFiredAt.GetOr(0), if m.id in kv then kv[m.id] else 0;
        var ts := if filed < fired then fired else filed;
        missions := missions + [if ts != 0 then m.(lastFiredAt := Some(ts)) else m];
      }
      out := c.(missions := missions);
    }

    method PutAway(ref: string, value: Option<string>) returns (left: Option<string>)
      modifies this`store
      ensures Put(store, left) == StoreSecret(available, old(store), ref, value)
    {
      var v := if value.Some? then Trim(value.value) else Trim("");
      if v == REDACTED { return None; }
      if v == "" {
        store := store - {ref};
        return None;
      }
      if available {
        store := store[ref := v];
        return None;
      }
      left := Some(v);
    }

    method StripTriggerSecrets(ts: seq<Trigger>) returns (triggers: seq<Trigger>)
      modifies this`store, this`secretCache
      ensures Triggered(store, triggers) == StripTriggers(available, old(store), ts)
    {
      triggers := [];
      for i := 0 to |ts|
        invariant Triggered(store, triggers) == StripTriggers(available, old(store), ts[..i])
      {
        assert ts[..i + 1][..i] == ts[..i];
        var left := PutAway(TriggerRef(ts[i].id), Some(ts[i].secret));
        triggers := triggers + [ts[i].(secret := left.GetOr(""))];
      }
      assert ts[..|ts|] == ts;
    }

    method StripFieldSecrets(given: map<Field, string>, names: seq<Field>) returns (secrets: map<Field, string>)
      modifies this`store, this`secretCache
      ensures Fielded(store, secrets) == StripFields(available, old(store), given, names)
    {
      secrets := map[];
      for i := 0 to |names|
        invariant Fielded(store, secrets) == StripFields(available, old(store), given, names[..i])
      {
        assert names[..i + 1][..i] == names[..i];
        var f := names[i];
        var left := PutAway(Ref(f), Lookup(given, f));
        if left.Some? { secrets := secrets[f := left.value]; }
      }
      assert names[..|names|] == names;
    }

    method StripSecrets(c: Config) returns (out: Config)
      modifies this`store, this`secretCache
      ensures Valid()
      ensures var fs := StripFields(available, old(store), c.secrets, SECRET_FIELDS); var ts := StripTriggers(available, fs.store, c.triggers);
        store == ts.store && out == c.(secrets := fs.secrets, triggers := ts.triggers)
    {
      var secrets := StripFieldSecrets(c.secrets, SECRET_FIELDS);
      var triggers := StripTriggerSecrets(c.triggers);
      secretCache := map[];
      out := c.(secrets := secrets, triggers := triggers);
    }

    method StripMissionStamps(c: Config) returns (out: Config)
      modifies this`kv
      ensures kv == if kvOpen then Stamps(c.missions) else old(kv)
      ensures out == c.(missions := if kvOpen then Unstamped(c.missions) else c.missions)
    {
      if !kvOpen { return c; }
      var fired: map<string, int> := map[];
      var missions: seq<Mission> := [];
      for i := 0 to |c.missions|
        invariant fired == Stamps(c.missions[..i]) && missions == Unstamped(c.missions)[..i]
      {
        assert c.missions[..i + 1][..i] == c.missions[..i];
        var m := c.missions[i];
        if m.lastFiredAt.Some? && m.lastFiredAt.value > 0 {
          fired := fired[m.id := m.lastFiredAt.value];
          missions := missions + [m.(lastFiredAt := None)];
        } else {
          missions := missions + [m];
        }
      }
      assert c.missions[..|c.missions|] == c.missions;
      kv := fired;
      out := c.(missions := missions);
    }

    method PersistConfig(c: Config, writes: bool) returns (ok: bool)
      modifies this
      ensures Valid() && Model() == if writes then Persisted(old(Model()), c) else Unwritten(old(Model()), c)
      ensures ok <==> writes || Persisted(old(Model()), c).last == old(lastPersisted)
    {
      var unstamped := StripMissionStamps(c);
      var body := StripSecrets(unstamped);
      if lastPersisted == Some(body) { return true; }
      if !writes { return false; }
      file := Some(body);
      lastPersisted := Some(body);
      ok := true;
    }

    method ReadConfig() returns (c: Config)
      requires Valid()
      modifies this
      ensures Valid() && c == View(old(Model())) && Model() == AfterRead(old(Model()))
    {
      if file.None? { return DEFAULTS; }
      var raw := file.value;
      c := WithSecrets(raw);
      c := WithMissionStamps(c);
      if HasPlaintext(raw) { var _ := PersistConfig(c, true); }
    }

    method WriteConfig(p: Patch)
      requires Valid()
      modifies this
      ensures Valid() && Model() == Written(old(Model()), p)
    {
      var current := ReadConfig();
      var _ := PersistConfig(Patched(current, p), true);
    }

    method DeleteSecretsWithPrefix(prefix: string)
      modifies this`store
      ensures store == Without(old(store), prefix)
    {
      store := map ref | ref in store && !(prefix <= ref) :: store[ref];
    }

    method ResetConfig()
      modifies this
      ensures Valid() && Model() == Reset(old(Model()))
    {
      DeleteSecretsWithPrefix("cfg:");
      DeleteSecretsWithPrefix("int:mcp:");
      secretCache := map[];
      var _ := PersistConfig(DEFAULTS, true);
    }
  }
}
