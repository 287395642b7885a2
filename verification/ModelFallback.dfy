/** Model profiles and their fallbacks: what a save validates, what a run follows.
  *
  * Validation reads a fallback id trimmed, the run reads it as stored. */
module ModelFallback {
  import opened Options
  import Text

  /** A model-profile row: the fallback id of its payload as sent (None when that is no text). */
  datatype Profile = Profile(fallback: Option<string>, revision: nat, builtin: bool)

  type Profiles = map<string, Profile>

  /** The fields of a save request that matter here: an absent field is None. */
  datatype Body = Body(fallback: Option<Option<string>>, builtin: Option<bool>, revision: Option<int>)

  datatype Error = Cycle(id: string) | NotFound(id: string) | ReadOnly(id: string) | Conflict(id: string)
                 | ProviderMissing(id: string)

  datatype Result<+T> = Ok(value: T) | Err(error: Error)

  /** Text that is not blank, trimmed: how the configuration API reads a field. */
  function StringValue(field: Option<string>): Option<string> {
    if field.Some? && Text.Trim(field.value) != "" then Some(Text.Trim(field.value)) else None
  }

  /** Text that is not blank, as stored: how a run reads a field. */
  function StringRecordValue(field: Option<string>): Option<string> {
    if field.Some? && Text.Trim(field.value) != "" then field else None
  }

  // ---------------------------------------------------------------- validating, saving, deleting

  /** The validation walk from `next`, having seen `visited`. */
  function Check(p: Profiles, visited: set<string>, next: Option<string>): Option<Error>
    decreases |p.Keys - visited|
  {
    match next
    case None => None
    case Some(id) =>
      if id in visited then Some(Cycle(id))
      else if id !in p then Some(NotFound(id))
      else
        Shrinks(p, visited, id);
        Check(p, visited + {id}, StringValue(p[id].fallback))
  }

  lemma Shrinks(p: Profiles, visited: set<string>, id: string)
    requires id in p && id !in visited
    ensures |p.Keys - (visited + {id})| < |p.Keys - visited|
  {
    assert p.Keys - (visited + {id}) == (p.Keys - visited) - {id};
  }

  function Merged(p: Profiles, id: string, body: Body): Option<string> {
    match body.fallback
    case Some(fallback) => fallback
    case None => if id in p then p[id].fallback else None
  }

  function Upserted(p: Profiles, id: string, body: Body): Result<Profile> {
    var builtin := if body.builtin.Some? then body.builtin.value else id in p && p[id].builtin;
    if id in p && p[id].builtin && !builtin then Err(ReadOnly(id))
    else if body.revision.Some? && !(id in p && p[id].revision == body.revision.value) then Err(Conflict(id))
    else if id in p then Ok(Profile(Merged(p, id, body), p[id].revision + 1, p[id].builtin))
    else Ok(Profile(Merged(p, id, body), 1, builtin))
  }

  function Saved(p: Profiles, id: string, body: Body): (Profiles, Option<Error>) {
    match Check(p, {id}, StringValue(Merged(p, id, body)))
    case Some(error) => (p, Some(error))
    case None =>
      match Upserted(p, id, body)
      case Err(error) => (p, Some(error))
      case Ok(profile) => (p[id := profile], None)
  }

  function Deleted(p: Profiles, id: string): (Profiles, Option<Error>) {
    if id !in p then (p, Some(NotFound(id))) else (p - {id}, None)
  }

  // ---------------------------------------------------------------- the run's walk

  /** The profiles a run takes from `current` on, as their ids. */
  function RunChain(p: Profiles, usable: Profile -> bool, visited: set<string>, current: Option<string>): Result<seq<string>>
    decreases |p.Keys - visited|
  {
    match current
    case None => Ok([])
    case Some(id) =>
      if id in visited then Err(Cycle(id))
      else if id !in p then Err(NotFound(id))
      else if !usable(p[id]) then Err(ProviderMissing(id))
      else
        Shrinks(p, visited, id);
        Prepend([id], RunChain(p, usable, visited + {id}, StringRecordValue(p[id].fallback)))
  }

  const SERVER_DEFAULT: string := "server-default"

  predicate IsServerDefault(profileId: Option<string>) { profileId.None? || profileId.value in ["", SERVER_DEFAULT] }

  /** The profiles a run tries in turn; the server's own provider, if it has one, when none is chosen. */
  function RunProviders(p: Profiles, hasServerDefault: bool, usable: Profile -> bool, profileId: Option<string>)
    : Result<seq<string>>
  {
    if !IsServerDefault(profileId) then RunChain(p, usable, {}, profileId)
    else if hasServerDefault then Ok([SERVER_DEFAULT]) else Err(ProviderMissing(SERVER_DEFAULT))
  }

  function Prepend(ids: seq<string>, rest: Result<seq<string>>): Result<seq<string>> {
    if rest.Ok? then Ok(ids + rest.value) else rest
  }

  // ---------------------------------------------------------------- the methods

  class ConfigResources {
    var profiles: Profiles

    constructor ()
      ensures profiles == map[]
    {
      profiles := map[];
    }

    method ValidateModelFallback(profileId: string, payload: Option<string>) returns (error: Option<Error>)
      ensures error == Check(profiles, {profileId}, StringValue(payload))
    {
      var visited := {profileId};
      var fallbackId := StringValue(payload);
      while fallbackId.Some?
        invariant Check(profiles, visited, fallbackId) == Check(profiles, {profileId}, StringValue(payload))
        decreases |profiles.Keys - visited|
      {
        var id := fallbackId.value;
        if id in visited {
          return Some(Cycle(id));
        }
        if id !in profiles {
          return Some(NotFound(id));
        }
        Shrinks(profiles, visited, id);
        visited := visited + {id};
        fallbackId := StringValue(profiles[id].fallback);
      }
      error := None;
    }

    /** A POST names the profile by trimmed text or a slug, a PATCH by a row that exists. */
    method Save(id: string, body: Body) returns (error: Option<Error>)
      requires Text.IsTrimmed(id) || id in profiles
      modifies this
      ensures (profiles, error) == Saved(old(profiles), id, body)
    {
      error := ValidateModelFallback(id, Merged(profiles, id, body));
      if error == None {
        match Upserted(profiles, id, body) {
          case Err(e) => error := Some(e);
          case Ok(profile) => profiles := profiles[id := profile];
        }
      }
    }

    method Delete(id: string) returns (error: Option<Error>)
      modifies this
      ensures (profiles, error) == Deleted(old(profiles), id)
    {
      if id !in profiles {
        return Some(NotFound(id));
      }
      profiles := profiles - {id};
      error := None;
    }

    method ResolveRunModelProvider(profileId: Option<string>, hasServerDefault: bool, usable: Profile -> bool)
      returns (r: Result<seq<string>>)
      ensures r == RunProviders(profiles, hasServerDefault, usable, profileId)
    {
      if IsServerDefault(profileId) {
        if !hasServerDefault {
          return Err(ProviderMissing(SERVER_DEFAULT));
        }
        return Ok([SERVER_DEFAULT]);
      }
      var ids: seq<string>, visited: set<string>, currentId := [], {}, profileId;
      PrependNothing(RunChain(profiles, usable, {}, profileId));
      hide Prepend;
      while currentId.Some?
        invariant RunChain(profiles, usable, {}, profileId)
                  == Prepend(ids, RunChain(profiles, usable, visited, currentId))
        decreases |profiles.Keys - visited|
      {
        var id := currentId.value;
        if id in visited {
          PrependFails(ids, Cycle(id));
          return Err(Cycle(id));
        }
        if id !in profiles {
          PrependFails(ids, NotFound(id));
          return Err(NotFound(id));
        }
        if !usable(profiles[id]) {
          PrependFails(ids, ProviderMissing(id));
          return Err(ProviderMissing(id));
        }
        Shrinks(profiles, visited, id);
        visited := visited + {id};
        PrependTwice(ids, id, RunChain(profiles, usable, visited, StringRecordValue(profiles[id].fallback)));
        ids := ids + [id];
        currentId := StringRecordValue(profiles[id].fallback);
      }
      PrependNothing(Ok(ids));
      r := Ok(ids);
    }
  }

  lemma PrependNothing(rest: Result<seq<string>>)
    ensures Prepend([], rest) == rest
    ensures rest.Ok? ==> Prepend(rest.value, Ok([])) == rest
  {
    if rest.Ok? { assert [] + rest.value == rest.value && rest.value + [] == rest.value; }
  }

  lemma PrependFails(ids: seq<string>, error: Error)
    ensures Prepend(ids, Err(error)) == Err(error)
  {
  }

  lemma PrependTwice(ids: seq<string>, id: string, rest: Result<seq<string>>)
    ensures Prepend(ids, Prepend([id], rest)) == Prepend(ids + [id], rest)
  {
    if rest.Ok? { assert ids + ([id] + rest.value) == ids + [id] + rest.value; }
  }

  // ---------------------------------------------------------------- chains

  function Next(p: Profiles, id: string): Option<string> {
    if id in p then StringValue(p[id].fallback) else None
  }

  /** Where `n` fallbacks lead from `id`: None once the chain has ended. */
  function Walk(p: Profiles, id: string, n: nat): Option<string>
    decreases n
  {
    if n == 0 then Some(id)
    else match Next(p, id) case None => None case Some(next) => Walk(p, next, n - 1)
  }

  ghost predicate Ends(p: Profiles, id: string) {
    exists n: nat :: Walk(p, id, n) == None
  }

  /** No chain of fallbacks runs in a circle, and rows are named by trimmed text. */
  ghost predicate Inv(p: Profiles) {
    && (forall id :: id in p ==> Text.IsTrimmed(id))
    && (forall id :: Ends(p, id))
  }

  lemma {:induction false} WalkOn(p: Profiles, id: string, m: nat, n: nat)
    ensures Walk(p, id, m + n) == match Walk(p, id, m) case None => None case Some(x) => Walk(p, x, n)
    decreases m
  {
    if m > 0 {
      match Next(p, id)
      case None =>
      case Some(next) => WalkOn(p, next, m - 1, n);
    }
  }

  /** A chain that ends never comes back to a profile: it has no cycle. */
  lemma {:induction false} NoReturn(p: Profiles, id: string, n: nat, k: nat)
    requires Walk(p, id, n) == None && k > 0
    ensures Walk(p, id, k) != Some(id)
    decreases n
  {
    if Walk(p, id, k) == Some(id) {
      if k <= n {
        WalkOn(p, id, k, n - k);
        NoReturn(p, id, n - k, k);
      } else {
        WalkOn(p, id, n, k - n);
      }
    }
  }

  /** Under the invariant following fallbacks never leads back to where one started. */
  lemma InvIsAcyclic(p: Profiles, id: string, k: nat)
    requires Inv(p) && k > 0
    ensures Walk(p, id, k) != Some(id)
  {
    assert Ends(p, id);
    var n: nat :| Walk(p, id, n) == None;
    NoReturn(p, id, n, k);
  }

  /** The whole chain from `id` exists, avoids `seen` and ends after `n` profiles. */
  ghost predicate Sound(p: Profiles, seen: set<string>, id: string, n: nat) {
    && Walk(p, id, n) == None
    && forall i: nat :: i < n && Walk(p, id, i).Some? ==> Walk(p, id, i).value in p && Walk(p, id, i).value !in seen
  }

  /** Validation passes exactly when the chain of fallbacks ends, every profile on it exists and none of them
    * is the one being saved. */
  lemma {:induction false} CheckDecides(p: Profiles, visited: set<string>, id: string)
    ensures Check(p, visited, Some(id)) == None <==> exists n: nat :: Sound(p, visited, id, n)
    decreases |p.Keys - visited|
  {
    if id in p && id !in visited {
      Shrinks(p, visited, id);
      match Next(p, id) {
        case None =>
          assert Walk(p, id, 1) == None;
          assert Sound(p, visited, id, 1);
        case Some(next) =>
          CheckDecides(p, visited + {id}, next);
          if n: nat :| Sound(p, visited + {id}, next, n) { SoundStep(p, visited, id, next, n); }
          if n: nat :| Sound(p, visited, id, n) { SoundRest(p, visited, id, next, n); }
      }
    } else {
      forall n: nat ensures !Sound(p, visited, id, n) {
        assert Walk(p, id, 0) == Some(id);
        if n == 0 { assert Walk(p, id, n) != None; }
      }
    }
  }

  lemma SoundStep(p: Profiles, visited: set<string>, id: string, next: string, n: nat)
    requires id in p && id !in visited && Next(p, id) == Some(next) && Sound(p, visited + {id}, next, n)
    ensures Sound(p, visited, id, n + 1)
  {
  }

  lemma SoundRest(p: Profiles, visited: set<string>, id: string, next: string, n: nat)
    requires id in p && id !in visited && Next(p, id) == Some(next) && Sound(p, visited, id, n)
    ensures n > 0 && Sound(p, visited + {id}, next, n - 1)
  {
    forall i: nat | i < n - 1 && Walk(p, next, i).Some?
      ensures Walk(p, next, i).value in p && Walk(p, next, i).value !in visited + {id}
    {
      assert Walk(p, id, i + 1) == Walk(p, next, i);
      NoReturn(p, id, n, i + 1);
    }
  }

  // ---------------------------------------------------------------- saves and deletes keep it

  /** A chain that never meets the changed row is the same chain. */
  lemma {:induction false} SameWalk(p: Profiles, p': Profiles, id: string, x: string, n: nat)
    requires forall y :: y != id ==> Next(p', y) == Next(p, y)
    requires forall i: nat :: i < n ==> Walk(p, x, i) != Some(id)
    ensures Walk(p', x, n) == Walk(p, x, n)
    decreases n
  {
    if n > 0 {
      assert Walk(p, x, 0) == Some(x);
      match Next(p, x)
      case None =>
      case Some(next) =>
        forall i: nat | i < n - 1 ensures Walk(p, next, i) != Some(id) { assert Walk(p, x, i + 1) == Walk(p, next, i); }
        SameWalk(p, p', id, next, n - 1);
    }
  }

  /** Once the changed row's own chain ends, so does every chain. */
  lemma {:induction false} ChangedEnds(p: Profiles, p': Profiles, id: string, x: string, n: nat)
    requires forall y :: y != id ==> Next(p', y) == Next(p, y)
    requires Ends(p', id) && Walk(p, x, n) == None
    ensures Ends(p', x)
    decreases n
  {
    if x != id {
      match Next(p, x)
      case None => assert Walk(p', x, 1) == None;
      case Some(next) =>
        ChangedEnds(p, p', id, next, n - 1);
        var m: nat :| Walk(p', next, m) == None;
        assert Walk(p', x, m + 1) == None;
    }
  }

  lemma ChangeKeeps(p: Profiles, p': Profiles, id: string)
    requires Inv(p) && Ends(p', id)
    requires forall y :: y != id ==> Next(p', y) == Next(p, y)
    ensures forall x :: Ends(p', x)
  {
    forall x ensures Ends(p', x) {
      assert Ends(p, x);
      var n: nat :| Walk(p, x, n) == None;
      ChangedEnds(p, p', id, x, n);
    }
  }

  lemma SaveKeeps(p: Profiles, id: string, body: Body)
    requires Inv(p) && (Text.IsTrimmed(id) || id in p)
    ensures Inv(Saved(p, id, body).0)
  {
    var p' := Saved(p, id, body).0;
    var next := StringValue(Merged(p, id, body));
    if p' != p {
      match next {
        case None => assert Walk(p', id, 1) == None;
        case Some(f) =>
          CheckDecides(p, {id}, f);
          var n: nat :| Sound(p, {id}, f, n);
          SameWalk(p, p', id, f, n);
          assert Walk(p', id, n + 1) == None;
      }
      ChangeKeeps(p, p', id);
    }
  }

  /** A save goes through exactly when the fallback's chain exists in full, ends and avoids the profile, a builtin
    * row is not unmarked and the expected revision is the stored one. It then changes that row alone and counts its
    * revision up; otherwise nothing changes. */
  lemma SaveOutcome(p: Profiles, id: string, body: Body)
    ensures var (p', error) := Saved(p, id, body);
            var next := StringValue(Merged(p, id, body));
            && (error == None <==>
                  && (next.Some? ==> exists n: nat :: Sound(p, {id}, next.value, n))
                  && !(id in p && p[id].builtin && body.builtin == Some(false))
                  && (body.revision.Some? ==> id in p && p[id].revision == body.revision.value))
            && (error != None ==> p' == p)
            && (error == None ==>
                  && id in p' && p' - {id} == p - {id}
                  && p'[id].revision == (if id in p then p[id].revision + 1 else 1)
                  && (id in p ==> p'[id].builtin == p[id].builtin)
                  && (body.fallback.Some? ==> p'[id].fallback == body.fallback.value)
                  && (body.fallback.None? ==> p'[id].fallback == if id in p then p[id].fallback else None))
  {
    var next := StringValue(Merged(p, id, body));
    if next.Some? { CheckDecides(p, {id}, next.value); }
    hide Sound, StringValue;
    var p' := Saved(p, id, body).0;
    if p' != p { assert p' - {id} == p - {id}; }
  }

  /** Deleting a profile leaves dangling fallbacks at most. */
  lemma DeleteKeeps(p: Profiles, id: string)
    requires Inv(p)
    ensures Inv(Deleted(p, id).0)
  {
    var p' := Deleted(p, id).0;
    if p' != p {
      assert Walk(p', id, 1) == None;
      ChangeKeeps(p, p', id);
    }
  }

  datatype Op = Save(id: string, body: Body) | Delete(id: string)

  predicate Allowed(p: Profiles, op: Op) {
    op.Save? ==> Text.IsTrimmed(op.id) || op.id in p
  }

  function Take(p: Profiles, op: Op): Profiles {
    match op
    case Save(id, body) => Saved(p, id, body).0
    case Delete(id) => Deleted(p, id).0
  }

  function After(ops: seq<Op>): Profiles {
    if ops == [] then map[] else Take(After(ops[..|ops| - 1]), ops[|ops| - 1])
  }

  predicate AllAllowed(ops: seq<Op>) {
    ops == [] || (AllAllowed(ops[..|ops| - 1]) && Allowed(After(ops[..|ops| - 1]), ops[|ops| - 1]))
  }

  /** Every sequence of saves and deletes keeps the fallback graph free of cycles. */
  lemma {:induction false} HistoryKeeps(ops: seq<Op>)
    requires AllAllowed(ops)
    ensures Inv(After(ops))
  {
    if ops == [] {
      forall id ensures Ends(After(ops), id) { assert Walk(After(ops), id, 1) == None; }
    } else {
      var before := After(ops[..|ops| - 1]);
      HistoryKeeps(ops[..|ops| - 1]);
      match ops[|ops| - 1]
      case Save(id, body) => SaveKeeps(before, id, body);
      case Delete(id) => DeleteKeeps(before, id);
    }
  }

  // ---------------------------------------------------------------- what the run meets

  /** A stored fallback that names a row is the id that validation read. */
  lemma RawIsTrimmed(p: Profiles, id: string)
    requires Inv(p) && id in p
    ensures var raw := StringRecordValue(p[id].fallback);
            raw.Some? ==> (raw.value in p ==> Next(p, id) == raw) && (Next(p, id) == raw <==> Text.IsTrimmed(raw.value))
  {
    if p[id].fallback.Some? { Text.TrimTrims(p[id].fallback.value); }
  }

  /** `current` lies further along the chain of every profile already visited. */
  ghost predicate Behind(p: Profiles, visited: set<string>, current: string) {
    forall v :: v in visited ==> exists k: nat :: k > 0 && Walk(p, v, k) == Some(current)
  }

  lemma BehindStep(p: Profiles, visited: set<string>, id: string, next: string)
    requires Behind(p, visited, id) && Next(p, id) == Some(next)
    ensures Behind(p, visited + {id}, next)
  {
    assert Walk(p, next, 0) == Some(next);
    assert Walk(p, id, 1) == Some(next);
    forall v | v in visited + {id} ensures exists k: nat :: k > 0 && Walk(p, v, k) == Some(next) {
      if v in visited {
        var k: nat :| k > 0 && Walk(p, v, k) == Some(id);
        WalkOn(p, v, k, 1);
        assert Walk(p, v, k + 1) == Some(next);
      }
    }
  }

  /** The run's walk never raises the cycle error. */
  lemma {:induction false} RunNeverCycles(p: Profiles, usable: Profile -> bool, visited: set<string>, id: string)
    requires Inv(p) && visited <= p.Keys && (id in p ==> Behind(p, visited, id))
    ensures var r := RunChain(p, usable, visited, Some(id)); r.Err? ==> !r.error.Cycle?
    decreases |p.Keys - visited|
  {
    if id in visited {
      var k: nat :| k > 0 && Walk(p, id, k) == Some(id);
      InvIsAcyclic(p, id, k);
    } else if id in p && usable(p[id]) {
      Shrinks(p, visited, id);
      RawIsTrimmed(p, id);
      match StringRecordValue(p[id].fallback)
      case None =>
      case Some(raw) =>
        if raw in p { BehindStep(p, visited, id, raw); }
        RunNeverCycles(p, usable, visited + {id}, raw);
    }
  }

  /** After any history no run is refused for a cycle of fallbacks, from whichever profile it starts. */
  lemma NoRunMeetsACycle(ops: seq<Op>, hasServerDefault: bool, usable: Profile -> bool, profileId: Option<string>)
    requires AllAllowed(ops)
    ensures var r := RunProviders(After(ops), hasServerDefault, usable, profileId); r.Err? ==> !r.error.Cycle?
  {
    HistoryKeeps(ops);
    if !IsServerDefault(profileId) { RunNeverCycles(After(ops), usable, {}, profileId.value); }
  }

  /** Every profile on the chain exists, can be used, and names its fallback without blanks around it. */
  ghost predicate Clean(p: Profiles, usable: Profile -> bool, id: string) {
    forall n: nat :: Walk(p, id, n).Some? ==> CleanAt(p, usable, Walk(p, id, n).value)
  }

  ghost predicate CleanAt(p: Profiles, usable: Profile -> bool, id: string) {
    id in p && usable(p[id]) && (StringValue(p[id].fallback).Some? ==> Text.IsTrimmed(p[id].fallback.value))
  }

  lemma CleanStep(p: Profiles, usable: Profile -> bool, id: string)
    ensures Clean(p, usable, id) <==>
            CleanAt(p, usable, id) && (Next(p, id).Some? ==> Clean(p, usable, Next(p, id).value))
  {
    assert Walk(p, id, 0) == Some(id);
    if Clean(p, usable, id) && Next(p, id).Some? {
      forall n: nat | Walk(p, Next(p, id).value, n).Some?
        ensures CleanAt(p, usable, Walk(p, Next(p, id).value, n).value)
      {
        assert Walk(p, id, n + 1) == Walk(p, Next(p, id).value, n);
      }
    }
    if CleanAt(p, usable, id) && (Next(p, id).Some? ==> Clean(p, usable, Next(p, id).value)) {
      forall n: nat | Walk(p, id, n).Some? ensures CleanAt(p, usable, Walk(p, id, n).value) {
        if n > 0 { assert Walk(p, id, n) == Walk(p, Next(p, id).value, n - 1); }
      }
    }
  }

  /** The run took the whole chain from `id` on, in its order. */
  ghost predicate TookChain(p: Profiles, id: string, ids: seq<string>) {
    && Walk(p, id, |ids|) == None
    && forall i :: 0 <= i < |ids| ==> Walk(p, id, i) == Some(ids[i])
  }

  lemma TookStep(p: Profiles, id: string, next: string, ids: seq<string>)
    requires Next(p, id) == Some(next) && TookChain(p, next, ids)
    ensures TookChain(p, id, [id] + ids)
  {
  }

  /** The run takes the whole validated chain exactly when every profile on it exists, can be used and names
    * its fallback without surrounding blanks; then it takes them in the order of the chain. */
  lemma {:induction false} RunTakesTheChain(p: Profiles, usable: Profile -> bool, visited: set<string>, id: string)
    requires Inv(p) && visited <= p.Keys && (id in p ==> Behind(p, visited, id))
    ensures var r := RunChain(p, usable, visited, Some(id));
            (r.Ok? <==> Clean(p, usable, id)) && (r.Ok? ==> TookChain(p, id, r.value))
    decreases |p.Keys - visited|
  {
    CleanStep(p, usable, id);
    RunNeverCycles(p, usable, visited, id);
    hide Clean, Behind, TookChain;
    if id in p && id !in visited && usable(p[id]) {
      Shrinks(p, visited, id);
      RawIsTrimmed(p, id);
      match StringRecordValue(p[id].fallback) {
        case None => TookLast(p, id);
        case Some(raw) =>
          if raw in p { BehindStep(p, visited, id, raw); }
          var later := visited + {id};
          assert later <= p.Keys;
          RunTakesTheChain(p, usable, later, raw);
          RunStep(p, usable, visited, id, raw);
          var rest := RunChain(p, usable, later, Some(raw));
          hide RunChain, Inv;
          if rest.Ok? && Next(p, id) == Some(raw) { TookStep(p, id, raw, rest.value); }
      }
    }
  }

  lemma TookLast(p: Profiles, id: string)
    requires Next(p, id) == None
    ensures TookChain(p, id, [id])
  {
  }

  lemma RunStep(p: Profiles, usable: Profile -> bool, visited: set<string>, id: string, raw: string)
    requires id in p && id !in visited && usable(p[id]) && StringRecordValue(p[id].fallback) == Some(raw)
    ensures RunChain(p, usable, visited, Some(id)) == Prepend([id], RunChain(p, usable, visited + {id}, Some(raw)))
    ensures Text.IsTrimmed(raw) <==> Next(p, id) == Some(raw)
    ensures raw !in p && raw !in visited + {id} ==> RunChain(p, usable, visited + {id}, Some(raw)) == Err(NotFound(raw))
  {
    Text.TrimTrims(raw);
  }

  lemma {:induction false} RunErrors(p: Profiles, usable: Profile -> bool, visited: set<string>, current: Option<string>)
    ensures match RunChain(p, usable, visited, current)
            case Err(NotFound(id)) => id !in p
            case Err(ProviderMissing(id)) => id in p && !usable(p[id])
            case Err(Cycle(id)) => true
            case Err(_) => false
            case Ok(_) => true
    decreases |p.Keys - visited|
  {
    if current.Some? && current.value !in visited && current.value in p && usable(p[current.value]) {
      Shrinks(p, visited, current.value);
      RunErrors(p, usable, visited + {current.value}, StringRecordValue(p[current.value].fallback));
    }
  }

  /** What a run gets after any history. Without a profile, or with the server's own, it is the server's provider or the
    * error that there is none; with another profile, the profile's whole chain or the first id on it that names no
    * profile or one that cannot be used. */
  lemma ProvidersOfRun(ops: seq<Op>, hasServerDefault: bool, usable: Profile -> bool, profileId: Option<string>)
    requires AllAllowed(ops)
    ensures var p, r := After(ops), RunProviders(After(ops), hasServerDefault, usable, profileId);
            if profileId == None || profileId == Some("") || profileId == Some("server-default") then
              r == if hasServerDefault then Ok(["server-default"]) else Err(ProviderMissing("server-default"))
            else
              && (r.Ok? <==> Clean(p, usable, profileId.value))
              && (r.Ok? ==> TookChain(p, profileId.value, r.value))
              && (r.Err? ==> match r.error
                             case NotFound(id) => id !in p
                             case ProviderMissing(id) => id in p && !usable(p[id])
                             case _ => false)
  {
    HistoryKeeps(ops);
    if !IsServerDefault(profileId) {
      RunTakesTheChain(After(ops), usable, {}, profileId.value);
      RunErrors(After(ops), usable, {}, profileId);
      NoRunMeetsACycle(ops, hasServerDefault, usable, profileId);
    }
    hide Clean, TookChain, RunChain, AllAllowed, After;
  }

  /** A deletion removes the named profile and no other, or reports it missing and removes none. */
  lemma DeleteOutcome(p: Profiles, id: string)
    ensures var (p', error) := Deleted(p, id);
            && (forall k :: k in p' <==> k in p && k != id)
            && (forall k :: k in p' ==> p'[k] == p[k])
            && error == if id in p then None else Some(NotFound(id))
  {
  }

  /** A fallback saved with blanks around the id of an existing profile passes validation, yet no run gets past
    * it: validation trims the id, the run looks it up as stored. */
  lemma PaddedFallbackStopsTheRun(p: Profiles, id: string, f: string, n: nat, padded: string,
                                  usable: Profile -> bool)
    requires Inv(p) && id !in p && Text.IsTrimmed(id) && id != f
    requires f in p && Sound(p, {id}, f, n) && Text.Trim(padded) == f && padded != f && f != ""
    ensures var (p', error) := Saved(p, id, Body(Some(Some(padded)), None, None));
            error == None && id in p' &&
            RunChain(p', usable, {}, Some(id)) == Err(if usable(p'[id]) then NotFound(padded) else ProviderMissing(id))
  {
    CheckDecides(p, {id}, f);
    Text.TrimTrims(padded);
    assert !Text.IsTrimmed(padded);
    var p' := Saved(p, id, Body(Some(Some(padded)), None, None)).0;
    assert padded !in p';
    assert RunChain(p', usable, {id}, Some(padded)) == Err(NotFound(padded));
    assert {} + {id} == {id};
  }
}
