/** The credential sync: copies the tokens of the store into the basic-auth Secrets that the
    Fleet cluster pulls Git with. */
module FleetCredentials {
  import opened Options

  /** What a Secret holds under `password`: nothing, bytes that are no UTF-8, or a text. */
  datatype Password = Missing | Undecodable | Text(text: string)

  /** `more` stands for every other key of the Secret, `owned` for those of them that its
      last-applied annotation records; an `apply` that does not list them prunes them. */
  datatype Secret = Secret(
    username: Option<string>, password: Password, more: map<string, string>, owned: set<string>)

  datatype Key = Key(namespace: string, name: string)

  /** A row of the table; an absent username is an empty one. */
  datatype Target = Target(key: Key, username: string)

  /** How a kubectl write ends: done; done but reported as failed; refused. */
  datatype Write = Done | DoneUnreported | Refused

  /** What the surroundings answer for one target: the store's token, whether reading the
      Secret succeeds, and the outcome of a write if one is made. */
  datatype Env = Env(token: Option<string>, readable: bool, write: Write)

  datatype Status =
    | NoToken | NoUsername | CreateFailed | PatchFailed
    | WouldCreate | WouldUpdate | Created | Updated
    | Same

  /** What a status counts as in the report. */
  datatype Kind = Failed | Changed | Unchanged

  function KindOf(s: Status): Kind {
    match s
    case NoToken | NoUsername | CreateFailed | PatchFailed => Failed
    case WouldCreate | WouldUpdate | Created | Updated => Changed
    case Same => Unchanged
  }

  type Secrets = map<Key, Secret>

  // ---- kubectl ----

  class Cluster {
    var secrets: Secrets

    constructor (s: Secrets)
      ensures secrets == s
    {
      secrets := s;
    }

    /** None when the read fails, and when the password is missing, empty or no text. */
    method ReadPassword(key: Key, readable: bool) returns (current: Option<string>)
      ensures current == Read(secrets, key, readable)
      ensures forall text: string :: current == Some(text) <==>
        readable && key in secrets && secrets[key].password == Text(text) && text != ""
    {
      if !readable || key !in secrets || !secrets[key].password.Text? {
        return None;
      }
      var text := secrets[key].password.text;
      current := if text == "" then None else Some(text);
    }

    /** `apply` with a username and a password: creates the Secret, or merges into it and prunes
        the keys an earlier `apply` left there. */
    method CreateSecret(key: Key, username: string, token: string, write: Write) returns (ok: bool)
      modifies this
      ensures ok == write.Done?
      ensures write.Refused? ==> secrets == old(secrets)
      ensures !write.Refused? ==> secrets == old(secrets)[key := Applied(old(secrets), key, username, token)]
      ensures !write.Refused? ==>
        var more := if key in old(secrets) then old(secrets)[key].more - old(secrets)[key].owned else map[];
        secrets[key] == Secret(Some(username), Text(token), more, {})
    {
      if !write.Refused? {
        secrets := secrets[key := Applied(secrets, key, username, token)];
      }
      ok := write.Done?;
    }

    /** The merge patch of the password alone. */
    method WritePassword(key: Key, token: string, write: Write) returns (ok: bool)
      requires key in secrets
      modifies this
      ensures ok == write.Done?
      ensures write.Refused? ==> secrets == old(secrets)
      ensures !write.Refused? ==> secrets == old(secrets)[key := old(secrets)[key].(password := Text(token))]
    {
      if !write.Refused? {
        secrets := secrets[key := secrets[key].(password := Text(token))];
      }
      ok := write.Done?;
    }

    /** The loop over the table. */
    method Run(targets: seq<Target>, envs: seq<Env>, dryRun: bool)
      returns (changed: nat, failed: nat, results: seq<Status>)
      requires |targets| == |envs|
      modifies this
      ensures secrets == After(old(secrets), targets, envs, dryRun)
      ensures results == Results(old(secrets), targets, envs, dryRun)
      ensures changed == Count(results, Changed) && failed == Count(results, Failed)
      ensures Tallied(results, changed, failed, Occurrences(results, Same))
    {
      changed, failed, results := 0, 0, [];
      ghost var before := secrets;
      var i := 0;
      while i < |targets|
        invariant i <= |targets|
        invariant secrets == After(before, targets[..i], envs[..i], dryRun)
        invariant results == Results(before, targets[..i], envs[..i], dryRun)
        invariant changed == Count(results, Changed) && failed == Count(results, Failed)
      {
        OneTargetMore(before, targets, envs, dryRun, i);
        var status := Sync(targets[i], envs[i], dryRun);
        CountSnoc(results, status);
        if KindOf(status) == Failed {
          failed := failed + 1;
        } else if KindOf(status) == Changed {
          changed := changed + 1;
        }
        results := results + [status];
        i := i + 1;
      }
      assert targets[..i] == targets && envs[..i] == envs;
      CountsAddUp(results);
    }

    /** One turn of the loop. */
    method Sync(t: Target, e: Env, dryRun: bool) returns (status: Status)
      modifies this
      ensures status == StatusOf(Lookup(old(secrets), t.key), t, e, dryRun)
      ensures secrets == SecretsAfter(old(secrets), t, e, dryRun)
    {
      if e.token.None? || e.token.value == "" {
        return NoToken;
      }
      var token := e.token.value;
      var current := ReadPassword(t.key, e.readable);
      if current.None? {
        if t.username == "" {
          return NoUsername;
        }
        if dryRun {
          return WouldCreate;
        }
        var ok := CreateSecret(t.key, t.username, token, e.write);
        return if ok then Created else CreateFailed;
      }
      if current.value == token {
        return Same;
      }
      if dryRun {
        return WouldUpdate;
      }
      var ok := WritePassword(t.key, token, e.write);
      return if ok then Updated else PatchFailed;
    }
  }

  // ---- what one turn does ----

  function Lookup(secrets: Secrets, key: Key): Option<Secret> {
    if key in secrets then Some(secrets[key]) else None
  }

  function Read(secrets: Secrets, key: Key, readable: bool): Option<string> {
    ReadFrom(Lookup(secrets, key), readable)
  }

  function ReadFrom(s: Option<Secret>, readable: bool): Option<string> {
    if readable && s.Some? && s.value.password.Text? && s.value.password.text != ""
    then Some(s.value.password.text) else None
  }

  function Applied(secrets: Secrets, key: Key, username: string, token: string): Secret {
    AppliedTo(Lookup(secrets, key), username, token)
  }

  function AppliedTo(s: Option<Secret>, username: string, token: string): Secret {
    Secret(Some(username), Text(token), if s.Some? then s.value.more - s.value.owned else map[], {})
  }

  /** The token, if there is one to use. */
  function Usable(e: Env): Option<string> {
    if e.token.Some? && e.token.value != "" then e.token else None
  }

  function StatusOf(s: Option<Secret>, t: Target, e: Env, dryRun: bool): Status {
    if Usable(e).None? then NoToken
    else
      match ReadFrom(s, e.readable)
      case None =>
        if t.username == "" then NoUsername
        else if dryRun then WouldCreate
        else if e.write.Done? then Created else CreateFailed
      case Some(current) =>
        if current == e.token.value then Same
        else if dryRun then WouldUpdate
        else if e.write.Done? then Updated else PatchFailed
  }

  function SecretAfter(s: Option<Secret>, t: Target, e: Env, dryRun: bool): Option<Secret> {
    var status := StatusOf(s, t, e, dryRun);
    if status.Created? || (status.CreateFailed? && !e.write.Refused?)
    then Some(AppliedTo(s, t.username, e.token.value))
    else if status.Updated? || (status.PatchFailed? && !e.write.Refused?)
    then Some(s.value.(password := Text(e.token.value)))
    else s
  }

  function SecretsAfter(secrets: Secrets, t: Target, e: Env, dryRun: bool): Secrets {
    match SecretAfter(Lookup(secrets, t.key), t, e, dryRun)
    case None => secrets
    case Some(s) => secrets[t.key := s]
  }

  // ---- the whole run ----

  function After(secrets: Secrets, targets: seq<Target>, envs: seq<Env>, dryRun: bool): Secrets
    requires |targets| == |envs|
  {
    if targets == [] then secrets
    else
      var n := |targets| - 1;
      SecretsAfter(After(secrets, targets[..n], envs[..n], dryRun), targets[n], envs[n], dryRun)
  }

  function Results(secrets: Secrets, targets: seq<Target>, envs: seq<Env>, dryRun: bool): (r: seq<Status>)
    requires |targets| == |envs|
    ensures |r| == |targets|
  {
    if targets == [] then []
    else
      var n := |targets| - 1;
      var now := After(secrets, targets[..n], envs[..n], dryRun);
      Results(secrets, targets[..n], envs[..n], dryRun)
        + [StatusOf(Lookup(now, targets[n].key), targets[n], envs[n], dryRun)]
  }

  function Count(results: seq<Status>, kind: Kind): nat {
    if results == [] then 0
    else Count(results[..|results| - 1], kind) + if KindOf(results[|results| - 1]) == kind then 1 else 0
  }

  lemma CountSnoc(results: seq<Status>, s: Status)
    ensures forall kind :: Count(results + [s], kind) == Count(results, kind) + if KindOf(s) == kind then 1 else 0
  {
    assert (results + [s])[..|results|] == results;
  }

  lemma Snoc<T>(s: seq<T>, i: nat)
    requires i < |s|
    ensures |s[..i + 1]| == i + 1 && s[..i + 1][..i] == s[..i] && s[..i + 1][i] == s[i]
  {
  }

  lemma OneTargetMore(secrets: Secrets, targets: seq<Target>, envs: seq<Env>, dryRun: bool, i: nat)
    requires |targets| == |envs| && i < |targets|
    ensures var now := After(secrets, targets[..i], envs[..i], dryRun);
      && After(secrets, targets[..i + 1], envs[..i + 1], dryRun) == SecretsAfter(now, targets[i], envs[i], dryRun)
      && Results(secrets, targets[..i + 1], envs[..i + 1], dryRun)
         == Results(secrets, targets[..i], envs[..i], dryRun)
            + [StatusOf(Lookup(now, targets[i].key), targets[i], envs[i], dryRun)]
  {
    Snoc(targets, i);
    Snoc(envs, i);
  }

  // ---- theorems ----

  ghost predicate Distinct(targets: seq<Target>) {
    forall i, j :: 0 <= i < j < |targets| ==> targets[i].key != targets[j].key
  }

  function Occurrences(results: seq<Status>, s: Status): nat {
    multiset(results)[s]
  }

  lemma OccurrencesStep(results: seq<Status>, s: Status)
    requires results != []
    ensures Occurrences(results, s)
         == Occurrences(results[..|results| - 1], s) + if results[|results| - 1] == s then 1 else 0
  {
    assert results == results[..|results| - 1] + [results[|results| - 1]];
  }

  /** How often each kind occurs, by the statuses that belong to it. */
  ghost predicate Tallied(results: seq<Status>, changed: nat, failed: nat, same: nat) {
    && changed == Occurrences(results, Created) + Occurrences(results, Updated)
                  + Occurrences(results, WouldCreate) + Occurrences(results, WouldUpdate)
    && failed == Occurrences(results, NoToken) + Occurrences(results, NoUsername)
                 + Occurrences(results, CreateFailed) + Occurrences(results, PatchFailed)
    && same == Occurrences(results, Same)
  }

  /** Every target is counted once, in the kind its status belongs to. */
  lemma {:induction false} CountsAddUp(results: seq<Status>)
    ensures Count(results, Changed) + Count(results, Failed) + Count(results, Unchanged) == |results|
    ensures Tallied(results, Count(results, Changed), Count(results, Failed), Count(results, Unchanged))
  {
    if results != [] {
      CountsAddUp(results[..|results| - 1]);
      forall s: Status
        ensures Occurrences(results, s)
             == Occurrences(results[..|results| - 1], s) + if results[|results| - 1] == s then 1 else 0
      {
        OccurrencesStep(results, s);
      }
    }
  }

  /** A Secret no target names is left alone. */
  lemma {:induction false} OthersStay(secrets: Secrets, targets: seq<Target>, envs: seq<Env>, dryRun: bool, key: Key)
    requires |targets| == |envs| && forall t :: t in targets ==> t.key != key
    ensures Lookup(After(secrets, targets, envs, dryRun), key) == Lookup(secrets, key)
  {
    if targets != [] {
      var n := |targets| - 1;
      assert targets[n] in targets;
      OthersStay(secrets, targets[..n], envs[..n], dryRun, key);
    }
  }

  /** With distinct Secrets each target is dealt with as if it were alone. */
  lemma {:induction false} Independent(secrets: Secrets, targets: seq<Target>, envs: seq<Env>, dryRun: bool, i: nat)
    requires |targets| == |envs| && Distinct(targets) && i < |targets|
    ensures var s, t := Lookup(secrets, targets[i].key), targets[i];
      && Results(secrets, targets, envs, dryRun)[i] == StatusOf(s, t, envs[i], dryRun)
      && Lookup(After(secrets, targets, envs, dryRun), t.key) == SecretAfter(s, t, envs[i], dryRun)
  {
    var n := |targets| - 1;
    if i == n {
      OthersStay(secrets, targets[..n], envs[..n], dryRun, targets[n].key);
    } else {
      Independent(secrets, targets[..n], envs[..n], dryRun, i);
    }
  }

  /** A sync that reports no failure leaves every password equal to the store's token. */
  lemma Converges(secrets: Secrets, targets: seq<Target>, envs: seq<Env>)
    requires |targets| == |envs| && Distinct(targets)
    requires Count(Results(secrets, targets, envs, false), Failed) == 0
    ensures forall i :: 0 <= i < |targets| ==>
      && Usable(envs[i]).Some?
      && Holds(After(secrets, targets, envs, false), targets[i].key, envs[i].token.value)
  {
    forall i | 0 <= i < |targets|
      ensures Usable(envs[i]).Some? && Holds(After(secrets, targets, envs, false), targets[i].key, envs[i].token.value)
    {
      Independent(secrets, targets, envs, false, i);
      NoneFails(Results(secrets, targets, envs, false), i);
      TurnConverges(Lookup(secrets, targets[i].key), targets[i], envs[i]);
    }
  }

  ghost predicate Holds(secrets: Secrets, key: Key, token: string) {
    key in secrets && secrets[key].password == Text(token)
  }

  lemma TurnConverges(s: Option<Secret>, t: Target, e: Env)
    requires KindOf(StatusOf(s, t, e, false)) != Failed
    ensures Usable(e).Some? && SecretAfter(s, t, e, false).Some?
    ensures SecretAfter(s, t, e, false).value.password == Text(e.token.value)
  {
  }

  lemma {:induction false} NoneFails(results: seq<Status>, i: nat)
    requires i < |results| && Count(results, Failed) == 0
    ensures KindOf(results[i]) != Failed
  {
    if i < |results| - 1 {
      NoneFails(results[..|results| - 1], i);
    }
  }

  /** Of several rows for one Secret the last decides its password. */
  lemma {:induction false} LastRowDecides(secrets: Secrets, targets: seq<Target>, envs: seq<Env>, i: nat)
    requires |targets| == |envs| && i < |targets|
    requires Count(Results(secrets, targets, envs, false), Failed) == 0
    requires forall j :: i < j < |targets| ==> targets[j].key != targets[i].key
    ensures Synced(After(secrets, targets, envs, false), targets[i], envs[i])
  {
    var n := |targets| - 1;
    var results := Results(secrets, targets, envs, false);
    assert results[..n] == Results(secrets, targets[..n], envs[..n], false);
    if i == n {
      var now := After(secrets, targets[..n], envs[..n], false);
      NoneFails(results, n);
      TurnConverges(Lookup(now, targets[n].key), targets[n], envs[n]);
    } else {
      assert targets[n].key != targets[i].key;
      LastRowDecides(secrets, targets[..n], envs[..n], i);
    }
  }

  lemma {:induction false} LastRowOf(targets: seq<Target>, i: nat) returns (j: nat)
    requires i < |targets|
    ensures i <= j < |targets| && targets[j].key == targets[i].key
    ensures forall k :: j < k < |targets| ==> targets[k].key != targets[i].key
    decreases |targets| - i
  {
    j := i;
    if k :| i < k < |targets| && targets[k].key == targets[i].key {
      j := LastRowOf(targets, k);
    }
  }

  /** Rows for one Secret want the same token. */
  ghost predicate Agreed(targets: seq<Target>, envs: seq<Env>)
    requires |targets| == |envs|
  {
    forall i, j :: 0 <= i < j < |targets| && targets[i].key == targets[j].key ==> envs[i].token == envs[j].token
  }

  /** For any table: a sync that reports no failure leaves every row's password equal to its
      token if and only if rows for one Secret agree on the token. */
  lemma {:induction false} ConvergesIff(secrets: Secrets, targets: seq<Target>, envs: seq<Env>)
    requires |targets| == |envs|
    requires Count(Results(secrets, targets, envs, false), Failed) == 0
    ensures Agreed(targets, envs) <==> forall i :: 0 <= i < |targets| ==>
      Synced(After(secrets, targets, envs, false), targets[i], envs[i])
  {
    var after := After(secrets, targets, envs, false);
    forall i | 0 <= i < |targets| ensures SomeLaterSynced(after, targets, envs, i) {
      var j := LastRowOf(targets, i);
      LastRowDecides(secrets, targets, envs, j);
      assert IsLater(targets, i, j);
    }
    AgreedIff(after, targets, envs);
  }

  /** Row `j` is row `i` or a later one for the same Secret. */
  ghost predicate IsLater(targets: seq<Target>, i: int, j: int) {
    0 <= i <= j < |targets| && targets[j].key == targets[i].key
  }

  /** The Secret of `t` holds the token the store has for it. */
  ghost predicate Synced(secrets: Secrets, t: Target, e: Env) {
    Usable(e).Some? && Holds(secrets, t.key, e.token.value)
  }

  ghost predicate SomeLaterSynced(secrets: Secrets, targets: seq<Target>, envs: seq<Env>, i: int)
    requires |targets| == |envs|
  {
    exists j :: IsLater(targets, i, j) && Synced(secrets, targets[j], envs[j])
  }

  lemma {:induction false} AgreedIff(secrets: Secrets, targets: seq<Target>, envs: seq<Env>)
    requires |targets| == |envs|
    requires forall i :: 0 <= i < |targets| ==> SomeLaterSynced(secrets, targets, envs, i)
    ensures Agreed(targets, envs) <==> forall i :: 0 <= i < |targets| ==> Synced(secrets, targets[i], envs[i])
  {
    if Agreed(targets, envs) {
      forall i | 0 <= i < |targets| ensures Synced(secrets, targets[i], envs[i]) {
        assert SomeLaterSynced(secrets, targets, envs, i);
        var j :| IsLater(targets, i, j) && Synced(secrets, targets[j], envs[j]);
        assert j > i ==> envs[i].token == envs[j].token;
      }
    }
  }

  /** After such a sync, the next one with the same tokens reports `same` for exactly the
      Secrets it can read; when it can read all of them it changes nothing. */
  lemma SecondSyncIsSame(secrets: Secrets, targets: seq<Target>, envs: seq<Env>, again: seq<Env>)
    requires |targets| == |envs| == |again| && Distinct(targets)
    requires Count(Results(secrets, targets, envs, false), Failed) == 0
    requires forall i :: 0 <= i < |again| ==> again[i].token == envs[i].token
    ensures var now := After(secrets, targets, envs, false);
      && (forall i :: 0 <= i < |targets| ==> (Results(now, targets, again, false)[i] == Same <==> again[i].readable))
      && ((forall i :: 0 <= i < |again| ==> again[i].readable) ==> After(now, targets, again, false) == now)
  {
    var now := After(secrets, targets, envs, false);
    Converges(secrets, targets, envs);
    forall i | 0 <= i < |targets|
      ensures Results(now, targets, again, false)[i] == Same <==> again[i].readable
      ensures again[i].readable ==>
        Lookup(After(now, targets, again, false), targets[i].key) == Lookup(now, targets[i].key)
    {
      Independent(now, targets, again, false, i);
    }
    if forall i :: 0 <= i < |again| ==> again[i].readable {
      SameEverywhere(now, targets, again);
    }
  }

  lemma SameEverywhere(now: Secrets, targets: seq<Target>, envs: seq<Env>)
    requires |targets| == |envs|
    requires forall i :: 0 <= i < |targets| ==>
      Lookup(After(now, targets, envs, false), targets[i].key) == Lookup(now, targets[i].key)
    ensures After(now, targets, envs, false) == now
  {
    var after := After(now, targets, envs, false);
    forall key: Key ensures Lookup(after, key) == Lookup(now, key) {
      if forall t :: t in targets ==> t.key != key {
        OthersStay(now, targets, envs, false, key);
      }
    }
    assert forall key :: key in now <==> Lookup(now, key).Some?;
    assert forall key :: key in after <==> Lookup(after, key).Some?;
    assert forall key :: key in now ==> now[key] == Lookup(now, key).value;
    assert forall key :: key in after ==> after[key] == Lookup(after, key).value;
  }

  /** A dry run changes nothing. */
  lemma {:induction false} DryRunChangesNothing(secrets: Secrets, targets: seq<Target>, envs: seq<Env>)
    requires |targets| == |envs|
    ensures After(secrets, targets, envs, true) == secrets
  {
    if targets != [] {
      DryRunChangesNothing(secrets, targets[..|targets| - 1], envs[..|targets| - 1]);
    }
  }

  /** What a dry run says where the real run would report `s`. */
  function Predicted(s: Status): Status {
    match s
    case Created | CreateFailed => WouldCreate
    case Updated | PatchFailed => WouldUpdate
    case _ => s
  }

  predicate Attempted(s: Status) {
    s.Created? || s.CreateFailed? || s.Updated? || s.PatchFailed?
  }

  function Attempts(results: seq<Status>): nat {
    if results == [] then 0
    else Attempts(results[..|results| - 1]) + if Attempted(results[|results| - 1]) then 1 else 0
  }

  /** A dry run predicts the real one status by status, and its `changed` is the number of
      creates and updates the real run attempts. */
  lemma DryRunPredicts(secrets: Secrets, targets: seq<Target>, envs: seq<Env>)
    requires |targets| == |envs| && Distinct(targets)
    ensures var dry, wet := Results(secrets, targets, envs, true), Results(secrets, targets, envs, false);
      && (forall i :: 0 <= i < |targets| ==> dry[i] == Predicted(wet[i]))
      && Count(dry, Changed) == Attempts(wet)
  {
    forall i | 0 <= i < |targets|
      ensures IsPrediction(Results(secrets, targets, envs, true)[i], Results(secrets, targets, envs, false)[i])
    {
      Independent(secrets, targets, envs, true, i);
      Independent(secrets, targets, envs, false, i);
      TurnPredicted(Lookup(secrets, targets[i].key), targets[i], envs[i]);
    }
    PredictedCount(Results(secrets, targets, envs, true), Results(secrets, targets, envs, false));
  }

  ghost predicate IsPrediction(dry: Status, wet: Status) {
    dry == Predicted(wet) && !wet.WouldCreate? && !wet.WouldUpdate?
  }

  lemma TurnPredicted(s: Option<Secret>, t: Target, e: Env)
    ensures IsPrediction(StatusOf(s, t, e, true), StatusOf(s, t, e, false))
  {
  }

  lemma {:induction false} PredictedCount(dry: seq<Status>, wet: seq<Status>)
    requires |dry| == |wet|
    requires forall i :: 0 <= i < |wet| ==> IsPrediction(dry[i], wet[i])
    ensures Count(dry, Changed) == Attempts(wet)
  {
    if wet != [] {
      PredictedCount(dry[..|dry| - 1], wet[..|wet| - 1]);
    }
  }

  /** A dry run of this table predicts the real one status by status, whatever the cluster
      holds and however the surroundings answer. */
  ghost predicate Predicts(secrets: Secrets, targets: seq<Target>, envs: seq<Env>)
    requires |targets| == |envs|
  {
    forall i :: 0 <= i < |targets| ==>
      Results(secrets, targets, envs, true)[i] == Predicted(Results(secrets, targets, envs, false)[i])
  }

  ghost predicate AlwaysPredicts(targets: seq<Target>) {
    forall secrets, envs :: |envs| == |targets| ==> Predicts(secrets, targets, envs)
  }

  /** The dry run of a table can be relied on if and only if no Secret is listed twice. */
  lemma DryRunPredictsIff(targets: seq<Target>)
    ensures AlwaysPredicts(targets) <==> Distinct(targets)
  {
    if Distinct(targets) {
      forall secrets, envs | |envs| == |targets| ensures Predicts(secrets, targets, envs) {
        DryRunPredicts(secrets, targets, envs);
      }
    } else {
      var i, j :| 0 <= i < j < |targets| && targets[i].key == targets[j].key;
      var secrets, envs := AllStale(targets), AllWell(targets);
      RepeatedRowMispredicts(targets, i, j);
      assert !Predicts(secrets, targets, envs);
    }
  }

  const WELL := Env(Some("t"), true, Done)

  /** Every listed Secret is there, with another password than the store's token. */
  function AllStale(targets: seq<Target>): Secrets {
    if targets == [] then map[]
    else AllStale(targets[..|targets| - 1])[targets[|targets| - 1].key := Secret(None, Text("x"), map[], {})]
  }

  function AllWell(targets: seq<Target>): (envs: seq<Env>)
    ensures |envs| == |targets| && forall i :: 0 <= i < |envs| ==> envs[i] == WELL
  {
    seq(|targets|, i => WELL)
  }

  ghost predicate Names(targets: seq<Target>, key: Key) {
    exists i :: 0 <= i < |targets| && targets[i].key == key
  }

  lemma {:induction false} StaleUntilNamed(secrets: Secrets, targets: seq<Target>, envs: seq<Env>, key: Key)
    requires |targets| == |envs| && forall i :: 0 <= i < |envs| ==> envs[i] == WELL
    requires Holds(secrets, key, "x")
    ensures Holds(After(secrets, targets, envs, false), key, if Names(targets, key) then "t" else "x")
  {
    if targets != [] {
      var n := |targets| - 1;
      StaleUntilNamed(secrets, targets[..n], envs[..n], key);
      assert Names(targets, key) <==> Names(targets[..n], key) || targets[n].key == key by {
        NamesStep(targets, key);
      }
    }
  }

  lemma NamesStep(targets: seq<Target>, key: Key)
    requires targets != []
    ensures Names(targets, key) <==> Names(targets[..|targets| - 1], key) || targets[|targets| - 1].key == key
  {
    var n := |targets| - 1;
    if i :| 0 <= i < |targets| && targets[i].key == key && i < n {
      assert targets[..n][i].key == key;
    }
    if i :| 0 <= i < n && targets[..n][i].key == key {
      assert targets[i].key == key;
    }
  }

  lemma {:induction false} StatusAt(secrets: Secrets, targets: seq<Target>, envs: seq<Env>, dryRun: bool, j: nat)
    requires |targets| == |envs| && j < |targets|
    ensures Results(secrets, targets, envs, dryRun)[j]
         == StatusOf(Lookup(After(secrets, targets[..j], envs[..j], dryRun), targets[j].key),
                     targets[j], envs[j], dryRun)
  {
    var n := |targets| - 1;
    if j < n {
      StatusAt(secrets, targets[..n], envs[..n], dryRun, j);
      assert targets[..n][..j] == targets[..j] && envs[..n][..j] == envs[..j];
    }
  }

  lemma {:induction false} StaleHolds(targets: seq<Target>, j: nat)
    requires j < |targets|
    ensures Holds(AllStale(targets), targets[j].key, "x")
  {
    if j < |targets| - 1 {
      StaleHolds(targets[..|targets| - 1], j);
    }
  }

  lemma {:induction false} DryAnnouncesUpdate(targets: seq<Target>, j: nat)
    requires j < |targets|
    ensures Results(AllStale(targets), targets, AllWell(targets), true)[j] == WouldUpdate
  {
    var secrets, envs := AllStale(targets), AllWell(targets);
    StaleHolds(targets, j);
    DryRunChangesNothing(secrets, targets[..j], envs[..j]);
    StatusAt(secrets, targets, envs, true, j);
  }

  lemma {:induction false} LaterRowIsSame(targets: seq<Target>, i: nat, j: nat)
    requires i < j < |targets| && targets[i].key == targets[j].key
    ensures Results(AllStale(targets), targets, AllWell(targets), false)[j] == Same
  {
    var secrets, envs := AllStale(targets), AllWell(targets);
    StaleHolds(targets, j);
    assert targets[..j][i].key == targets[j].key;
    StaleUntilNamed(secrets, targets[..j], envs[..j], targets[j].key);
    StatusAt(secrets, targets, envs, false, j);
  }

  /** The later of two rows for one Secret is announced as an update and turns out the same. */
  lemma {:induction false} RepeatedRowMispredicts(targets: seq<Target>, i: nat, j: nat)
    requires i < j < |targets| && targets[i].key == targets[j].key
    ensures var secrets, envs := AllStale(targets), AllWell(targets);
      Results(secrets, targets, envs, true)[j] == WouldUpdate && Results(secrets, targets, envs, false)[j] == Same
  {
    DryAnnouncesUpdate(targets, j);
    LaterRowIsSame(targets, i, j);
  }

  /** The same for a Secret that is not there yet: the dry run announces two creations, the
      real run makes one. */
  lemma RepeatedTargetMispredicts(t: Target, e: Env) returns (targets: seq<Target>, envs: seq<Env>)
    requires t.username != "" && Usable(e).Some? && e.readable && e.write.Done?
    ensures targets == [t, t] && envs == [e, e]
    ensures Results(map[], targets, envs, true) == [WouldCreate, WouldCreate]
    ensures Results(map[], targets, envs, false) == [Created, Same]
  {
    targets, envs := [t, t], [e, e];
    assert targets[..1] == [t] && envs[..1] == [e] && [t][..0] == [] && [e][..0] == [];
    assert After(map[], [t], [e], true) == map[];
    assert After(map[], [t], [e], false)[t.key].password == Text(e.token.value);
  }

  /** Whether the real run applies the target's manifest to the Secret `s`. */
  predicate Applies(s: Secret, t: Target, e: Env) {
    ReadFrom(Some(s), e.readable).None? && Usable(e).Some? && t.username != "" && !e.write.Refused?
  }

  predicate Legible(p: Password) {
    p.Text? && p.text != ""
  }

  /** The username of the last manifest a real run applies to the existing Secret `s` under
      `key`, if any, read off the table and the surroundings: a row applies its manifest when it
      has something to write and cannot read the password, which is legible once some row has
      written it. */
  function LastManifest(s: Secret, targets: seq<Target>, envs: seq<Env>, key: Key): Option<string>
    requires |targets| == |envs|
  {
    if targets == [] then None
    else
      var n := |targets| - 1;
      var before, t, e := LastManifest(s, targets[..n], envs[..n], key), targets[n], envs[n];
      if t.key == key && Usable(e).Some? && t.username != "" && !e.write.Refused?
         && (!e.readable || (before.None? && !Legible(s.password)))
      then Some(t.username) else before
  }

  /** The password a real run leaves under `key`, read off the same: that of the last row that has
      something to write, is not refused, and either can read the password or has a username. */
  function LastPassword(was: Password, targets: seq<Target>, envs: seq<Env>, key: Key): Password
    requires |targets| == |envs|
  {
    if targets == [] then was
    else
      var n := |targets| - 1;
      var before, t, e := LastPassword(was, targets[..n], envs[..n], key), targets[n], envs[n];
      if t.key == key && Usable(e).Some? && !e.write.Refused? && (t.username != "" || (e.readable && Legible(before)))
      then Text(e.token.value) else before
  }

  const BLANK := Secret(None, Missing, map[], {})

  /** A Secret that is not there counts as a blank one. */
  function OrBlank(s: Option<Secret>): Secret {
    if s.Some? then s.value else BLANK
  }

  /** What becomes of a Secret, password aside. */
  ghost predicate LeftAs(s: Secret, now: Secret, manifest: Option<string>) {
    && now.username == (if manifest.Some? then manifest else s.username)
    && now.more == (if manifest.Some? then s.more - s.owned else s.more)
    && now.owned == (if manifest.Some? then {} else s.owned)
    && (Legible(now.password) <==> manifest.Some? || Legible(s.password))
  }

  lemma TurnLeaves(s: Secret, now: Option<Secret>, before: Option<string>, t: Target, e: Env)
    requires LeftAs(s, OrBlank(now), before)
    ensures var after, applies := SecretAfter(now, t, e, false), Applies(OrBlank(now), t, e);
      && (after.Some? <==> now.Some? || applies)
      && LeftAs(s, OrBlank(after), if applies then Some(t.username) else before)
    ensures Applies(OrBlank(now), t, e) <==>
      && Usable(e).Some? && t.username != "" && !e.write.Refused?
      && (!e.readable || (before.None? && !Legible(s.password)))
  {
    if Applies(OrBlank(now), t, e) && before.Some? {
      assert OrBlank(now).more - OrBlank(now).owned == OrBlank(now).more;
    }
  }

  lemma TurnWrites(now: Option<Secret>, t: Target, e: Env)
    ensures OrBlank(SecretAfter(now, t, e, false)).password
      == if Usable(e).Some? && !e.write.Refused? && (t.username != "" || (e.readable && Legible(OrBlank(now).password)))
         then Text(e.token.value) else OrBlank(now).password
  {
  }

  /** What a real run makes of any Secret, there or not, whatever the table. */
  lemma {:induction false} RunLeaves(secrets: Secrets, targets: seq<Target>, envs: seq<Env>, key: Key)
    requires |targets| == |envs|
    ensures var s, after := OrBlank(Lookup(secrets, key)), Lookup(After(secrets, targets, envs, false), key);
      && (after.Some? <==> key in secrets || LastManifest(s, targets, envs, key).Some?)
      && LeftAs(s, OrBlank(after), LastManifest(s, targets, envs, key))
      && OrBlank(after).password == LastPassword(s.password, targets, envs, key)
  {
    if targets != [] {
      var n := |targets| - 1;
      var s, now := OrBlank(Lookup(secrets, key)), After(secrets, targets[..n], envs[..n], false);
      RunLeaves(secrets, targets[..n], envs[..n], key);
      if targets[n].key == key {
        TurnLeaves(s, Lookup(now, key), LastManifest(s, targets[..n], envs[..n], key), targets[n], envs[n]);
        TurnWrites(Lookup(now, key), targets[n], envs[n]);
      }
    }
  }

  /** For any table: a Secret that was not there is made if and only if some manifest is applied;
      it then holds the username of the last one and the token written last, and nothing else. */
  lemma AbsentBecomes(secrets: Secrets, targets: seq<Target>, envs: seq<Env>, key: Key)
    requires |targets| == |envs| && key !in secrets
    ensures var after := After(secrets, targets, envs, false);
      var manifest := LastManifest(Secret(None, Missing, map[], {}), targets, envs, key);
      && (manifest.None? ==> key !in after)
      && (manifest.Some? ==>
            && key in after
            && after[key] == Secret(manifest, LastPassword(Missing, targets, envs, key), map[], {})
            && after[key].password.Text? && after[key].password.text != "")
  {
    RunLeaves(secrets, targets, envs, key);
    assert BLANK.more - BLANK.owned == map[];
  }

  /** In a table without repetitions, row by row: what is reported and what becomes of the Secret. */
  lemma TargetBecomes(secrets: Secrets, targets: seq<Target>, envs: seq<Env>, i: nat)
    requires |targets| == |envs| && Distinct(targets) && i < |targets|
    ensures var t, e, after := targets[i], envs[i], After(secrets, targets, envs, false);
      var status := Results(secrets, targets, envs, false)[i];
      var there := t.key in secrets;
      if e.token == None || e.token == Some("") then status == NoToken && Untouched(secrets, after, t.key)
      else if there && e.readable && secrets[t.key].password.Text? && secrets[t.key].password.text != "" then
        var s := secrets[t.key];
        if s.password.text == e.token.value then status == Same && Untouched(secrets, after, t.key)
        else
          && status == (if e.write == Done then Updated else PatchFailed)
          && (if e.write == Refused then Untouched(secrets, after, t.key)
              else t.key in after && after[t.key] == Secret(s.username, Text(e.token.value), s.more, s.owned))
      else if t.username == "" then status == NoUsername && Untouched(secrets, after, t.key)
      else
        && status == (if e.write == Done then Created else CreateFailed)
        && (if e.write == Refused then Untouched(secrets, after, t.key)
            else
              var more := if there then secrets[t.key].more - secrets[t.key].owned else map[];
              t.key in after && after[t.key] == Secret(Some(t.username), Text(e.token.value), more, {}))
  {
    Independent(secrets, targets, envs, false, i);
  }

  ghost predicate Untouched(secrets: Secrets, after: Secrets, key: Key) {
    (key in after <==> key in secrets) && (key in secrets ==> after[key] == secrets[key])
  }

  /** For any table: a real run keeps an existing Secret's username if and only if it applies no
      manifest to it, or the last one it applies has the same username. In a table without
      repetitions that is the row's own manifest. */
  lemma {:induction false} UsernameKeptIff(secrets: Secrets, targets: seq<Target>, envs: seq<Env>, i: nat)
    requires |targets| == |envs| && i < |targets| && targets[i].key in secrets
    ensures var s, key, after := secrets[targets[i].key], targets[i].key, After(secrets, targets, envs, false);
      var manifest := LastManifest(s, targets, envs, key);
      && key in after
      && (after[key].username == s.username <==> manifest.None? || s.username == manifest)
      && (Distinct(targets) ==>
            (after[key].username == s.username <==>
               !Applies(s, targets[i], envs[i]) || s.username == Some(targets[i].username)))
  {
    RunLeaves(secrets, targets, envs, targets[i].key);
    if Distinct(targets) {
      OwnManifest(secrets[targets[i].key], targets, envs, i);
    }
  }

  /** It keeps every other key if and only if it applies no manifest, or no such key is
      recorded as applied before. */
  lemma {:induction false} OtherKeysKeptIff(secrets: Secrets, targets: seq<Target>, envs: seq<Env>, i: nat)
    requires |targets| == |envs| && i < |targets| && targets[i].key in secrets
    ensures var s, key, after := secrets[targets[i].key], targets[i].key, After(secrets, targets, envs, false);
      && key in after
      && (after[key].more == s.more <==>
            LastManifest(s, targets, envs, key).None? || s.owned !! s.more.Keys)
      && (Distinct(targets) ==>
            (after[key].more == s.more <==> !Applies(s, targets[i], envs[i]) || s.owned !! s.more.Keys))
  {
    var s := secrets[targets[i].key];
    RunLeaves(secrets, targets, envs, targets[i].key);
    PruningKeepsIff(s.more, s.owned);
    if Distinct(targets) {
      OwnManifest(s, targets, envs, i);
    }
  }

  lemma {:induction false} OwnManifest(s: Secret, targets: seq<Target>, envs: seq<Env>, i: nat)
    requires |targets| == |envs| && i < |targets| && Distinct(targets)
    ensures LastManifest(s, targets, envs, targets[i].key)
         == if Applies(s, targets[i], envs[i]) then Some(targets[i].username) else None
  {
    var n := |targets| - 1;
    if i < n {
      OwnManifest(s, targets[..n], envs[..n], i);
    } else {
      NoManifest(s, targets[..n], envs[..n], targets[n].key);
    }
  }

  lemma {:induction false} NoManifest(s: Secret, targets: seq<Target>, envs: seq<Env>, key: Key)
    requires |targets| == |envs| && forall t :: t in targets ==> t.key != key
    ensures LastManifest(s, targets, envs, key).None?
  {
    if targets != [] {
      assert targets[|targets| - 1] in targets;
      NoManifest(s, targets[..|targets| - 1], envs[..|targets| - 1], key);
    }
  }

  // ---- witnesses ----

  lemma OneRow(secrets: Secrets, t: Target, e: Env)
    ensures After(secrets, [t], [e], false) == SecretsAfter(secrets, t, e, false)
    ensures Results(secrets, [t], [e], false) == [StatusOf(Lookup(secrets, t.key), t, e, false)]
  {
    assert [t][..0] == [] && [e][..0] == [];
  }

  lemma TwoRows(secrets: Secrets, t: Target, u: Target, e: Env, d: Env)
    ensures var now := SecretsAfter(secrets, t, e, false);
      && After(secrets, [t, u], [e, d], false) == SecretsAfter(now, u, d, false)
      && Results(secrets, [t, u], [e, d], false)
         == [StatusOf(Lookup(secrets, t.key), t, e, false), StatusOf(Lookup(now, u.key), u, d, false)]
  {
    assert [t, u][..1] == [t] && [e, d][..1] == [e];
    OneRow(secrets, t, e);
  }

  /** One failed read is enough: the Secret loses its username and a key, and the sync reports
      that it created it. */
  lemma FailedReadOverwrites() returns (secrets: Secrets, t: Target, e: Env)
    ensures t.key in secrets && secrets[t.key].username == Some("a") && secrets[t.key].password == Text("token")
    ensures secrets[t.key].more == map["x" := "y"]
    ensures e == Env(Some("token"), false, Done)
    ensures Results(secrets, [t], [e], false) == [Created]
    ensures var after := After(secrets, [t], [e], false);
      t.key in after && after[t.key].username == Some("b") && after[t.key].more == map[]
  {
    t, e := Target(Key("ns", "git"), "b"), Env(Some("token"), false, Done);
    secrets := map[t.key := Secret(Some("a"), Text("token"), map["x" := "y"], {"x"})];
    OneRow(secrets, t, e);
    assert map["x" := "y"] - {"x"} == map[];
  }

  /** Two rows that disagree on one Secret's token: no failure, and the first is not satisfied. */
  lemma DisagreeingRowsPart() returns (t: Target, envs: seq<Env>)
    ensures envs == [Env(Some("a"), true, Done), Env(Some("b"), true, Done)]
    ensures Results(map[], [t, t], envs, false) == [Created, Updated]
    ensures !Synced(After(map[], [t, t], envs, false), t, envs[0])
  {
    t := Target(Key("ns", "git"), "user");
    envs := [Env(Some("a"), true, Done), Env(Some("b"), true, Done)];
    TwoRows(map[], t, t, envs[0], envs[1]);
  }

  lemma PruningKeepsIff(more: map<string, string>, owned: set<string>)
    ensures more - owned == more <==> owned !! more.Keys
  {
    if k :| k in owned && k in more {
      assert k !in more - owned;
    }
  }
}
