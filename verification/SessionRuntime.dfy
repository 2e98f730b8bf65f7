/** Which identity owns which upstream session (`SessionRuntime`): every `async with self._lock` body is
    one atomic step on two TTL caches, the pending claims and the registered creates. */
module SessionRuntime {
  import opened Text
  import opened TtlCache

  /** Identities, contexts and session ids are non-empty wherever they reach the runtime. */
  type Name = s: string | s != "" witness "x"

  /** Identity and context. */
  type Key = (Name, Name)

  datatype Limits = Limits(ttl: int, maxsize: int)

  function Bindings(l: Limits): Config { Config(l.ttl, l.maxsize, false) }

  function Ownership(l: Limits): Config { Config(l.ttl, l.maxsize, true) }

  datatype Runtime = Runtime(
    sessions: Dict<Key>,
    owners: Dict<Name>,
    pending: map<Name, Name>,
    inflight: map<Key, nat>)

  const EMPTY: Runtime := Runtime(Dict([], map[]), Dict([], map[]), map[], map[])

  predicate Well(rt: Runtime) {
    DictOk(rt.sessions) && DictOk(rt.owners)
  }

  /** What Python's `if value` keeps of an optional string. */
  function Truthy(o: Option<string>): Option<Name> {
    match o
    case Some(v) => if v != "" then Some(v) else None
    case None => None
  }

  /** The pending claim on a session. */
  function PendingOn(rt: Runtime, sid: Name): Option<Name> {
    if sid in rt.pending then Some(rt.pending[sid]) else None
  }

  /** `_assert_claimable_session` does not raise. */
  predicate Claimable(owner: Option<string>, pending: Option<Name>, identity: Name) {
    Truthy(owner) in {None, Some(identity)} && pending in {None, Some(identity)}
  }

  // ------------------------------------------------------- the locked sections

  datatype Step =
    | Prefer(identity: Name, context: Name, sid: Name)
    | Look(identity: Name, context: Name, task: nat)
    | CreateFailed(identity: Name, context: Name, task: nat)
    | Record(identity: Name, context: Name, task: nat, sid: Name)
    | FinalizePreferred(identity: Name, context: Name, sid: Name)
    | Release(identity: Name, sid: Name)
    | Claim(identity: Name, sid: Name)
    | FinalizeClaim(identity: Name, sid: Name)
    | OwnerMatches(identity: Name, sid: Name)
    | CancelRunning(identity: Name, context: Name)

  datatype Outcome =
    | Forbidden                             // PermissionError
    | Taken(pending: bool)                  // Prefer and Claim: is there now a claim to settle?
    | Existing(sid: Name)                   // Look: already bound
    | Awaits(task: nat)                     // Look: wait for this create
    | Verdict(matches: Option<bool>)        // OwnerMatches
    | Done

  datatype Result = Result(after: Runtime, outcome: Outcome)

  /** `self._session_owners.get(sid)`: the owner, and the runtime after the lookup. */
  function Owner(l: Limits, rt: Runtime, sid: Name, now: real): (Runtime, Option<string>) {
    var got := Lookup(Ownership(l), rt.owners, sid, now);
    (rt.(owners := got.dict), got.value)
  }

  function Bind(l: Limits, rt: Runtime, key: Key, sid: Name, now: real): Runtime
    requires Well(rt)
  {
    rt.(sessions := Stored(Bindings(l), rt.sessions, key, sid, now))
  }

  function Own(l: Limits, rt: Runtime, sid: Name, identity: Name, now: real): Runtime
    requires Well(rt)
  {
    rt.(owners := Stored(Ownership(l), rt.owners, sid, identity, now))
  }

  function Unregister(rt: Runtime, key: Key, task: nat): Runtime {
    if key in rt.inflight && rt.inflight[key] == task then rt.(inflight := rt.inflight - {key}) else rt
  }

  function Withdraw(rt: Runtime, identity: Name, sid: Name): Runtime {
    if PendingOn(rt, sid) == Some(identity) then rt.(pending := rt.pending - {sid}) else rt
  }

  /** What one locked section does. */
  function Perform(l: Limits, rt: Runtime, step: Step, now: real): Result
    requires Well(rt)
  {
    match step
    case Prefer(i, c, sid) =>
      var (looked, owner) := Owner(l, rt, sid, now);
      OwnerWell(l, rt, sid, now);
      if !Claimable(owner, PendingOn(rt, sid), i) then Result(looked, Forbidden)
      else if owner == Some(i) then Result(Bind(l, looked, (i, c), sid, now), Taken(false))
      else Result(looked.(pending := rt.pending[sid := i]), Taken(true))
    case Look(i, c, task) =>
      var got := Lookup(Bindings(l), rt.sessions, (i, c), now);
      var looked := rt.(sessions := got.dict);
      if Truthy(got.value).Some? then Result(looked, Existing(Truthy(got.value).value))
      else if (i, c) in rt.inflight then Result(looked, Awaits(rt.inflight[(i, c)]))
      else Result(looked.(inflight := rt.inflight[(i, c) := task]), Awaits(task))
    case CreateFailed(i, c, task) => Result(Unregister(rt, (i, c), task), Done)
    case Record(i, c, task, sid) =>
      var (looked, owner) := Owner(l, rt, sid, now);
      OwnerWell(l, rt, sid, now);
      if !Claimable(owner, None, i) then Result(looked, Forbidden)
      else
        var bound := Bind(l, looked, (i, c), sid, now);
        BindWell(l, looked, (i, c), sid, now);
        var owned := if Truthy(owner).None? then Own(l, bound, sid, i, now) else bound;
        Result(Unregister(owned, (i, c), task), Done)
    case FinalizePreferred(i, c, sid) =>
      var (looked, owner) := Owner(l, rt, sid, now);
      OwnerWell(l, rt, sid, now);
      if !Claimable(owner, PendingOn(rt, sid), i) then Result(looked, Forbidden)
      else
        var owned := Own(l, looked, sid, i, now);
        OwnWell(l, looked, sid, i, now);
        Result(Withdraw(Bind(l, owned, (i, c), sid, now), i, sid), Done)
    case Release(i, sid) => Result(Withdraw(rt, i, sid), Done)
    case Claim(i, sid) =>
      var (looked, owner) := Owner(l, rt, sid, now);
      if !Claimable(owner, PendingOn(rt, sid), i) then Result(looked, Forbidden)
      else if owner == Some(i) then Result(looked, Taken(false))
      else Result(looked.(pending := rt.pending[sid := i]), Taken(true))
    case FinalizeClaim(i, sid) =>
      var (looked, owner) := Owner(l, rt, sid, now);
      OwnerWell(l, rt, sid, now);
      if !Claimable(owner, PendingOn(rt, sid), i) then Result(looked, Forbidden)
      else Result(Withdraw(Own(l, looked, sid, i, now), i, sid), Done)
    case OwnerMatches(i, sid) =>
      var (looked, owner) := Owner(l, rt, sid, now);
      Result(looked, Verdict(
        if Truthy(owner).Some? then Some(owner == Some(i))
        else if PendingOn(rt, sid).Some? then Some(PendingOn(rt, sid) == Some(i))
        else None))
    case CancelRunning(i, c) =>
      Result(rt.(sessions := Drop(rt.sessions, (i, c)), inflight := rt.inflight - {(i, c)}), Done)
  }

  lemma OwnerWell(l: Limits, rt: Runtime, sid: Name, now: real)
    requires Well(rt)
    ensures Well(Owner(l, rt, sid, now).0)
  {
    hide DictOk;
    GetKeepsDict(Ownership(l), rt.owners, sid, now);
  }

  lemma BindWell(l: Limits, rt: Runtime, key: Key, sid: Name, now: real)
    requires Well(rt)
    ensures Well(Bind(l, rt, key, sid, now))
  {
    hide DictOk;
    SetKeepsDict(Bindings(l), rt.sessions, key, sid, now);
  }

  lemma OwnWell(l: Limits, rt: Runtime, sid: Name, identity: Name, now: real)
    requires Well(rt)
    ensures Well(Own(l, rt, sid, identity, now))
  {
    hide DictOk;
    SetKeepsDict(Ownership(l), rt.owners, sid, identity, now);
  }

  lemma StepWell(l: Limits, rt: Runtime, step: Step, now: real)
    requires Well(rt)
    ensures Well(Perform(l, rt, step, now).after)
  {
    hide DictOk, Lookup, Stored, Drop;
    match step {
      case Prefer(i, c, sid) =>
        OwnerWell(l, rt, sid, now);
        BindWell(l, Owner(l, rt, sid, now).0, (i, c), sid, now);
      case Look(i, c, task) => GetKeepsDict(Bindings(l), rt.sessions, (i, c), now);
      case Record(i, c, task, sid) =>
        OwnerWell(l, rt, sid, now);
        var looked := Owner(l, rt, sid, now).0;
        BindWell(l, looked, (i, c), sid, now);
        OwnWell(l, Bind(l, looked, (i, c), sid, now), sid, i, now);
      case FinalizePreferred(i, c, sid) =>
        OwnerWell(l, rt, sid, now);
        var looked := Owner(l, rt, sid, now).0;
        OwnWell(l, looked, sid, i, now);
        BindWell(l, Own(l, looked, sid, i, now), (i, c), sid, now);
      case FinalizeClaim(i, sid) =>
        OwnerWell(l, rt, sid, now);
        OwnWell(l, Owner(l, rt, sid, now).0, sid, i, now);
      case Claim(i, sid) => OwnerWell(l, rt, sid, now);
      case OwnerMatches(i, sid) => OwnerWell(l, rt, sid, now);
      case CancelRunning(i, c) => DropOk(rt.sessions, (i, c));
      case _ =>
    }
  }

  // ---------------------------------------------------------- what a step does

  /** The caches are what their operations build, and hold no empty string. */
  ghost predicate Sound(l: Limits, rt: Runtime, now: real) {
    SoundCache(Bindings(l), rt.sessions, now) && SoundCache(Ownership(l), rt.owners, now)
  }

  ghost predicate SoundCache<K(!new)>(c: Config, d: Dict<K>, now: real) {
    && CacheOk(c, d, now)
    && (forall k :: k in d.items ==> d.items[k].value != "")
  }

  /** The live owner of a session. */
  function OwnerOf(rt: Runtime, sid: Name, now: real): Option<string> {
    if Live(rt.owners.items, sid, now) then Some(rt.owners.items[sid].value) else None
  }

  predicate Binds(step: Step) {
    step.Prefer? || step.Record? || step.FinalizePreferred?
  }

  predicate Targets(step: Step, sid: Name) {
    !step.Look? && !step.CreateFailed? && !step.CancelRunning? && step.sid == sid
  }

  /** The only binding a step can add is the caller's own, and then the caller is the session's owner and
      the owner entry expires with the binding. */
  ghost predicate BindingsFollowOwner(l: Limits, rt: Runtime, step: Step, now: real, after: Runtime) {
    forall k :: k in after.sessions.items ==>
      || (k in rt.sessions.items && after.sessions.items[k] == rt.sessions.items[k])
      || (&& Binds(step) && k == (step.identity, step.context)
          && after.sessions.items[k] == Item(step.sid, now + l.ttl as real)
          && step.sid in after.owners.items
          && after.owners.items[step.sid] == Item(step.identity, now + l.ttl as real))
  }

  /** The only owner entry a step can write is that of its session: it is the live owner's, refreshed, or,
      if there is no live owner, the caller's. */
  ghost predicate OwnersAreKept(l: Limits, rt: Runtime, step: Step, now: real, after: Runtime) {
    forall s :: s in after.owners.items ==>
      || (s in rt.owners.items && after.owners.items[s] == rt.owners.items[s])
      || (&& Targets(step, s)
          && after.owners.items[s].expiry == now + l.ttl as real
          && after.owners.items[s].value ==
             if OwnerOf(rt, s, now).Some? then OwnerOf(rt, s, now).value else step.identity)
  }

  lemma LookupSound<K(!new)>(c: Config, d: Dict<K>, k: K, now: real)
    requires SoundCache(c, d, now)
    ensures var got := Lookup(c, d, k, now);
            && SoundCache(c, got.dict, now) && DictOk(got.dict)
            && got.value == (if Live(d.items, k, now) then Some(d.items[k].value) else None)
            && got.value == Truthy(got.value)
            && (forall x :: x in got.dict.items ==>
                 x in d.items && got.dict.items[x].value == d.items[x].value
                 && (x != k || !c.refreshOnGet ==> got.dict.items[x] == d.items[x]))
            && (got.value.Some? ==>
                 k in got.dict.items && (c.refreshOnGet ==> got.dict.items[k].expiry == now + c.ttl as real))
            && (got.value.None? ==> k !in got.dict.items)
  {
    GetOk(c, d, k, now);
    GetKeepsDict(c, d, k, now);
    hide DictOk, NoDuplicates;
  }

  lemma StoredSound<K(!new)>(c: Config, d: Dict<K>, k: K, value: string, now: real)
    requires SoundCache(c, d, now) && value != ""
    ensures DictOk(d)
    ensures var e := Stored(c, d, k, value, now);
            && SoundCache(c, e, now) && DictOk(e)
            && (Enabled(c) ==> k in e.items && e.items[k] == Item(value, now + c.ttl as real))
            && (!Enabled(c) ==> e.items == map[])
            && (forall x :: x in e.items && x != k ==> x in d.items && e.items[x] == d.items[x])
  {
    SetMeans(c, d, k, value, now);
    hide DictOk, NoDuplicates, Stored;
  }

  lemma DropSound<K(!new)>(c: Config, d: Dict<K>, k: K, now: real)
    requires SoundCache(c, d, now)
    ensures SoundCache(c, Drop(d, k), now) && DictOk(Drop(d, k))
  {
    DropOk(d, k);
    hide DictOk, NoDuplicates;
  }

  lemma PreferEffects(l: Limits, rt: Runtime, step: Step, now: real)
    requires Sound(l, rt, now) && Well(rt) && step.Prefer?
    ensures EffectsOk(l, rt, step, now)
  {
    hide DictOk, SoundCache, Stored, Lookup;
    LookupSound(Ownership(l), rt.owners, step.sid, now);
    StoredSound(Bindings(l), rt.sessions, (step.identity, step.context), step.sid, now);
  }

  lemma RecordEffects(l: Limits, rt: Runtime, step: Step, now: real)
    requires Sound(l, rt, now) && Well(rt) && step.Record?
    ensures EffectsOk(l, rt, step, now)
  {
    hide DictOk, SoundCache, Stored, Lookup;
    LookupSound(Ownership(l), rt.owners, step.sid, now);
    var looked := Lookup(Ownership(l), rt.owners, step.sid, now).dict;
    StoredSound(Bindings(l), rt.sessions, (step.identity, step.context), step.sid, now);
    StoredSound(Ownership(l), looked, step.sid, step.identity, now);
  }

  lemma FinalizePreferredEffects(l: Limits, rt: Runtime, step: Step, now: real)
    requires Sound(l, rt, now) && Well(rt) && step.FinalizePreferred?
    ensures EffectsOk(l, rt, step, now)
  {
    hide DictOk, SoundCache, Stored, Lookup;
    LookupSound(Ownership(l), rt.owners, step.sid, now);
    StoredSound(Ownership(l), Lookup(Ownership(l), rt.owners, step.sid, now).dict, step.sid, step.identity, now);
    StoredSound(Bindings(l), rt.sessions, (step.identity, step.context), step.sid, now);
  }

  lemma FinalizeClaimEffects(l: Limits, rt: Runtime, step: Step, now: real)
    requires Sound(l, rt, now) && Well(rt) && step.FinalizeClaim?
    ensures EffectsOk(l, rt, step, now)
  {
    hide DictOk, SoundCache, Stored, Lookup;
    LookupSound(Ownership(l), rt.owners, step.sid, now);
    StoredSound(Ownership(l), Lookup(Ownership(l), rt.owners, step.sid, now).dict, step.sid, step.identity, now);
  }

  lemma AskEffects(l: Limits, rt: Runtime, step: Step, now: real)
    requires Sound(l, rt, now) && Well(rt) && (step.Claim? || step.OwnerMatches?)
    ensures EffectsOk(l, rt, step, now)
  {
    hide DictOk, SoundCache, Stored, Lookup;
    LookupSound(Ownership(l), rt.owners, step.sid, now);
  }

  lemma OtherEffects(l: Limits, rt: Runtime, step: Step, now: real)
    requires Sound(l, rt, now) && Well(rt)
    requires step.Look? || step.CreateFailed? || step.Release? || step.CancelRunning?
    ensures EffectsOk(l, rt, step, now)
  {
    hide DictOk, SoundCache, Stored, Lookup;
    if step.Look? {
      LookupSound(Bindings(l), rt.sessions, (step.identity, step.context), now);
    } else if step.CancelRunning? {
      DropSound(Bindings(l), rt.sessions, (step.identity, step.context), now);
    }
  }

  /** What any locked section leaves. */
  ghost predicate EffectsOk(l: Limits, rt: Runtime, step: Step, now: real)
    requires Well(rt)
  {
    var after := Perform(l, rt, step, now).after;
    && Sound(l, after, now) && Well(after)
    && BindingsFollowOwner(l, rt, step, now, after)
    && OwnersAreKept(l, rt, step, now, after)
  }

  lemma StepEffects(l: Limits, rt: Runtime, step: Step, now: real)
    requires Sound(l, rt, now) && Well(rt)
    ensures EffectsOk(l, rt, step, now)
  {
    hide EffectsOk;
    match step {
      case Prefer(_, _, _) => PreferEffects(l, rt, step, now);
      case Record(_, _, _, _) => RecordEffects(l, rt, step, now);
      case FinalizePreferred(_, _, _) => FinalizePreferredEffects(l, rt, step, now);
      case FinalizeClaim(_, _) => FinalizeClaimEffects(l, rt, step, now);
      case Claim(_, _) => AskEffects(l, rt, step, now);
      case OwnerMatches(_, _) => AskEffects(l, rt, step, now);
      case _ => OtherEffects(l, rt, step, now);
    }
  }

  // --------------------------------------------------------- ownership, one step

  /** Every live binding (identity, context) -> s has an owner entry s -> identity that expires no earlier. */
  ghost predicate Agreement(rt: Runtime, now: real) {
    forall k :: Live(rt.sessions.items, k, now) ==> Backed(rt, k)
  }

  ghost predicate Backed(rt: Runtime, k: Key)
    requires k in rt.sessions.items
  {
    var s := rt.sessions.items[k].value;
    && s != "" && s in rt.owners.items
    && rt.owners.items[s].value == k.0
    && rt.owners.items[s].expiry >= rt.sessions.items[k].expiry
  }

  /** Every live binding's session has an owner entry at all. */
  ghost predicate OwnersKept(rt: Runtime, now: real) {
    forall k :: Live(rt.sessions.items, k, now) ==> HasOwner(rt, k)
  }

  ghost predicate HasOwner(rt: Runtime, k: Key)
    requires k in rt.sessions.items
  {
    rt.sessions.items[k].value != "" && rt.sessions.items[k].value in rt.owners.items
  }

  /** The step made the owner cache evict a live entry. */
  ghost predicate LosesOwner(rt: Runtime, after: Runtime, now: real) {
    exists s :: Live(rt.owners.items, s, now) && s !in after.owners.items
  }

  /** The step gives an owner to a session that has no live one. */
  predicate StoresOwner(rt: Runtime, step: Step, now: real) {
    && (step.Record? || step.FinalizePreferred? || step.FinalizeClaim?)
    && OwnerOf(rt, step.sid, now).None?
    && (step.Record? || PendingOn(rt, step.sid) in {None, Some(step.identity)})
  }

  /** The live owner entry that this costs: the earliest to expire, if the owner cache is full of live entries. */
  ghost function LostOwner(l: Limits, rt: Runtime, step: Step, now: real): Option<Name> {
    if StoresOwner(rt, step, now) then Victim(Ownership(l), Drop(rt.owners, step.sid), step.sid, now) else None
  }

  /** A live binding that the step neither replaces nor evicts. */
  ghost predicate StaysBound(l: Limits, rt: Runtime, step: Step, now: real, k: Key) {
    && Live(rt.sessions.items, k, now)
    && (Binds(step) ==>
         var own := (step.identity, step.context);
         k != own && Victim(Bindings(l), rt.sessions, own, now) != Some(k))
  }

  /** The step costs a session its owner, and the session's binding stays. */
  ghost predicate Orphans(l: Limits, rt: Runtime, step: Step, now: real) {
    && LostOwner(l, rt, step, now).Some?
    && exists k :: StaysBound(l, rt, step, now, k) && BoundTo(rt, k, LostOwner(l, rt, step, now).value)
  }

  predicate BoundTo(rt: Runtime, k: Key, s: Name) {
    k in rt.sessions.items && rt.sessions.items[k].value == s
  }

  lemma LookupKeepsLive<K(!new)>(c: Config, d: Dict<K>, k: K, now: real, x: K)
    requires Live(d.items, x, now)
    ensures x in Lookup(c, d, k, now).dict.items
  {
  }

  /** Asking for what is not live leaves the dictionary without it. */
  lemma DeadIsDropped<K(!new)>(c: Config, d: Dict<K>, k: K, now: real)
    requires SoundCache(c, d, now) && !Live(d.items, k, now)
    ensures Lookup(c, d, k, now).dict == Drop(d, k)
  {
    if k !in d.items {
      assert d.items - {k} == d.items;
      assert k !in d.order;
    }
  }

  predicate AsksOwner(step: Step) {
    !step.Look? && !step.CreateFailed? && !step.CancelRunning? && !step.Release?
  }

  /** What a section does to the owner cache. */
  lemma OwnersAfter(l: Limits, rt: Runtime, step: Step, now: real)
    requires Sound(l, rt, now) && Well(rt)
    ensures var after, c := Perform(l, rt, step, now).after, Ownership(l);
            if StoresOwner(rt, step, now) then
              DictOk(Lookup(c, rt.owners, step.sid, now).dict)
              && after.owners == Stored(c, Lookup(c, rt.owners, step.sid, now).dict, step.sid, step.identity, now)
            else
              || after.owners == rt.owners
              || (AsksOwner(step) && DictOk(Lookup(c, rt.owners, step.sid, now).dict)
                  && (|| after.owners == Lookup(c, rt.owners, step.sid, now).dict
                      || (Live(rt.owners.items, step.sid, now)
                          && after.owners == Stored(c, Lookup(c, rt.owners, step.sid, now).dict, step.sid, step.identity, now))))
  {
    hide DictOk, SoundCache, Stored, Lookup;
    if AsksOwner(step) {
      LookupSound(Ownership(l), rt.owners, step.sid, now);
    }
  }

  /** A live owner entry is evicted exactly if it is the one the step costs. */
  lemma OwnerLostExactly(l: Limits, rt: Runtime, step: Step, now: real, x: Name)
    requires Sound(l, rt, now) && Well(rt) && Live(rt.owners.items, x, now)
    ensures x !in Perform(l, rt, step, now).after.owners.items <==> LostOwner(l, rt, step, now) == Some(x)
  {
    OwnersAfter(l, rt, step, now);
    hide Perform, DictOk, SoundCache, Stored, Lookup, Victim, Drop, Well;
    if StoresOwner(rt, step, now) {
      NewOwnerCosts(l, rt, step.sid, step.identity, now, x);
    } else if AsksOwner(step) {
      LookupKeepsLive(Ownership(l), rt.owners, step.sid, now, x);
      if Live(rt.owners.items, step.sid, now) {
        KeptDict(l, rt, step.sid, now);
        RefreshKeepsLive(l, rt, step.sid, step.identity, now, x);
      }
    }
  }

  lemma KeptDict(l: Limits, rt: Runtime, sid: Name, now: real)
    requires Sound(l, rt, now)
    ensures DictOk(Lookup(Ownership(l), rt.owners, sid, now).dict)
  {
    hide DictOk, SoundCache, Lookup;
    LookupSound(Ownership(l), rt.owners, sid, now);
  }

  lemma NewOwnerCosts(l: Limits, rt: Runtime, sid: Name, identity: Name, now: real, x: Name)
    requires Sound(l, rt, now) && Live(rt.owners.items, x, now) && OwnerOf(rt, sid, now).None?
    ensures var looked := Lookup(Ownership(l), rt.owners, sid, now).dict;
            DictOk(looked) &&
            (x !in Stored(Ownership(l), looked, sid, identity, now).items
             <==> Victim(Ownership(l), Drop(rt.owners, sid), sid, now) == Some(x))
  {
    hide DictOk, SoundCache, Stored, Lookup, Victim, Drop;
    var looked := Lookup(Ownership(l), rt.owners, sid, now).dict;
    LookupSound(Ownership(l), rt.owners, sid, now);
    LookupKeepsLive(Ownership(l), rt.owners, sid, now, x);
    DeadIsDropped(Ownership(l), rt.owners, sid, now);
    SoundIsOk(Ownership(l), looked, now);
    SameExpiry(l, rt, sid, now, x);
    EvictsVictim(Ownership(l), looked, sid, identity, now, x);
  }

  lemma SameExpiry(l: Limits, rt: Runtime, sid: Name, now: real, x: Name)
    requires Live(rt.owners.items, x, now) && OwnerOf(rt, sid, now).None?
    ensures Live(Lookup(Ownership(l), rt.owners, sid, now).dict.items, x, now)
  {
  }

  lemma SoundIsOk<K(!new)>(c: Config, d: Dict<K>, now: real)
    requires SoundCache(c, d, now)
    ensures CacheOk(c, d, now) && DictOk(d)
  {
  }

  /** Storing the owner of an owned session evicts nothing. */
  lemma RefreshKeepsLive(l: Limits, rt: Runtime, sid: Name, identity: Name, now: real, x: Name)
    requires Sound(l, rt, now) && Live(rt.owners.items, x, now)
    requires DictOk(Lookup(Ownership(l), rt.owners, sid, now).dict)
    ensures Live(rt.owners.items, sid, now) ==>
              x in Stored(Ownership(l), Lookup(Ownership(l), rt.owners, sid, now).dict, sid, identity, now).items
  {
    hide DictOk, SoundCache, Stored, Lookup;
    if Live(rt.owners.items, sid, now) {
      var looked := Lookup(Ownership(l), rt.owners, sid, now).dict;
      LookupSound(Ownership(l), rt.owners, sid, now);
      OwnedMeansEnabledSound(l, rt, sid, now);
      StoredSound(Ownership(l), looked, sid, identity, now);
      if x != sid {
        LookupKeepsLive(Ownership(l), rt.owners, sid, now, x);
        SoundIsOk(Ownership(l), looked, now);
        EvictsVictim(Ownership(l), looked, sid, identity, now, x);
      }
    }
  }

  lemma OwnedMeansEnabledSound(l: Limits, rt: Runtime, sid: Name, now: real)
    requires Sound(l, rt, now) && Live(rt.owners.items, sid, now)
    ensures Enabled(Ownership(l))
  {
  }

  /** What a section that stores an owner does to the bindings. */
  lemma BindingsAfter(l: Limits, rt: Runtime, step: Step, now: real)
    requires Sound(l, rt, now) && Well(rt) && StoresOwner(rt, step, now)
    ensures Perform(l, rt, step, now).after.sessions ==
            if Binds(step) then Stored(Bindings(l), rt.sessions, (step.identity, step.context), step.sid, now)
            else rt.sessions
  {
    hide DictOk, SoundCache, Stored, Lookup;
    LookupSound(Ownership(l), rt.owners, step.sid, now);
  }

  /** Such a section keeps a live binding of another session exactly if the binding stays bound. */
  lemma BindingKeptExactly(l: Limits, rt: Runtime, step: Step, now: real, k: Key)
    requires Sound(l, rt, now) && Well(rt) && StoresOwner(rt, step, now)
    requires Live(rt.sessions.items, k, now) && rt.sessions.items[k].value != step.sid
    ensures var items := Perform(l, rt, step, now).after.sessions.items;
            k in items && items[k] == rt.sessions.items[k] <==> StaysBound(l, rt, step, now, k)
  {
    BindingsAfter(l, rt, step, now);
    hide Perform, DictOk, SoundCache, Stored, Victim;
    if Binds(step) {
      var own := (step.identity, step.context);
      SoundIsOk(Bindings(l), rt.sessions, now);
      LiveMeansEnabled(Bindings(l), rt.sessions, k, now);
      StoredSound(Bindings(l), rt.sessions, own, step.sid, now);
      if k != own {
        EvictsVictim(Bindings(l), rt.sessions, own, step.sid, now, k);
      }
    }
  }

  /** A section that is not refused and binds its context: preferring one's own session, recording a created one, or
      settling the claim on a preferred one. */
  predicate WritesBinding(rt: Runtime, step: Step, now: real) {
    || (step.Prefer? && OwnerOf(rt, step.sid, now) == Some(step.identity)
        && PendingOn(rt, step.sid) in {None, Some(step.identity)})
    || (step.Record? && OwnerOf(rt, step.sid, now) in {None, Some(step.identity)})
    || (step.FinalizePreferred? && OwnerOf(rt, step.sid, now) in {None, Some(step.identity)}
        && PendingOn(rt, step.sid) in {None, Some(step.identity)})
  }

  /** What each section leaves of the bindings. */
  lemma SessionsAfter(l: Limits, rt: Runtime, step: Step, now: real)
    requires Sound(l, rt, now) && Well(rt)
    ensures var after := Perform(l, rt, step, now).after;
            if WritesBinding(rt, step, now) then
              after.sessions == Stored(Bindings(l), rt.sessions, (step.identity, step.context), step.sid, now)
            else if step.CancelRunning? then after.sessions == Drop(rt.sessions, (step.identity, step.context))
            else if step.Look? then
              after.sessions == Lookup(Bindings(l), rt.sessions, (step.identity, step.context), now).dict
            else after.sessions == rt.sessions
  {
    hide DictOk, SoundCache, Stored, Lookup;
    if AsksOwner(step) {
      LookupSound(Ownership(l), rt.owners, step.sid, now);
    }
  }

  /** A live binding goes only by cancelling its context, or because the section that binds another context finds
      the cache full of live bindings and this one the first to expire; it changes only when its own context is
      bound anew. No other section touches it, not even one that is refused or only looks. */
  lemma BoundExactly(l: Limits, rt: Runtime, step: Step, now: real, k: Key)
    requires Sound(l, rt, now) && Well(rt) && Live(rt.sessions.items, k, now)
    ensures var items := Perform(l, rt, step, now).after.sessions.items;
            if WritesBinding(rt, step, now) then
              var own := (step.identity, step.context);
              if k == own then k in items && items[k] == Item(step.sid, now + l.ttl as real)
              else if Victim(Bindings(l), rt.sessions, own, now) == Some(k) then k !in items
              else k in items && items[k] == rt.sessions.items[k]
            else if step.CancelRunning? && k == (step.identity, step.context) then k !in items
            else k in items && items[k] == rt.sessions.items[k]
  {
    SessionsAfter(l, rt, step, now);
    SoundIsOk(Bindings(l), rt.sessions, now);
    hide Perform, DictOk, SoundCache, Stored, Victim, OwnerOf;
    if WritesBinding(rt, step, now) {
      var own := (step.identity, step.context);
      LiveMeansEnabled(Bindings(l), rt.sessions, k, now);
      StoredSound(Bindings(l), rt.sessions, own, step.sid, now);
      if k != own {
        EvictsVictim(Bindings(l), rt.sessions, own, step.sid, now, k);
      }
    }
  }

  /** Asking who owns a session that is owned lets the entry live a full time again; asking for one that is not
      owned leaves no entry behind, unless the section makes the caller its owner. */
  lemma AskedOwnerIsRefreshed(l: Limits, rt: Runtime, step: Step, now: real)
    requires Sound(l, rt, now) && Well(rt) && AsksOwner(step)
    ensures var items := Perform(l, rt, step, now).after.owners.items;
            if OwnerOf(rt, step.sid, now).Some? then
              step.sid in items && items[step.sid] == Item(OwnerOf(rt, step.sid, now).value, now + l.ttl as real)
            else if StoresOwner(rt, step, now) && l.ttl > 0 && l.maxsize > 0 then
              step.sid in items && items[step.sid] == Item(step.identity, now + l.ttl as real)
            else step.sid !in items
  {
    hide DictOk, SoundCache, Stored, Lookup;
    LookupSound(Ownership(l), rt.owners, step.sid, now);
    OwnedMeansEnabled(l, rt, step.sid, now);
    StoredSound(Ownership(l), Lookup(Ownership(l), rt.owners, step.sid, now).dict, step.sid, step.identity, now);
  }

  /** What `session_owner_matches` answers: the owner decides, and if there is none, the claim. */
  lemma VerdictExactly(l: Limits, rt: Runtime, i: Name, s: Name, now: real)
    requires Sound(l, rt, now) && Well(rt)
    ensures var outcome := Perform(l, rt, OwnerMatches(i, s), now).outcome;
            && (outcome == Verdict(Some(true)) <==>
                  OwnerOf(rt, s, now) == Some(i) || (OwnerOf(rt, s, now).None? && PendingOn(rt, s) == Some(i)))
            && (outcome == Verdict(None) <==> OwnerOf(rt, s, now).None? && PendingOn(rt, s).None?)
            && outcome.Verdict?
  {
    hide DictOk, SoundCache, Stored, Lookup;
    LookupSound(Ownership(l), rt.owners, s, now);
  }

  lemma LiveMeansEnabled<K(!new)>(c: Config, d: Dict<K>, k: K, now: real)
    requires CacheOk(c, d, now) && Live(d.items, k, now)
    ensures Enabled(c)
  {
  }

  /** A locked section keeps bindings and owners in agreement exactly if it does not cost a session that stays
      bound its owner; and it can only do so by evicting a live owner. */
  lemma AgreementKept(l: Limits, rt: Runtime, step: Step, now: real)
    requires Sound(l, rt, now) && Well(rt) && Agreement(rt, now)
    ensures var after := Perform(l, rt, step, now).after;
            && (Agreement(after, now) <==> !Orphans(l, rt, step, now))
            && (Agreement(after, now) <==> OwnersKept(after, now))
            && (LosesOwner(rt, after, now) <==> LostOwner(l, rt, step, now).Some?)
            && (!LosesOwner(rt, after, now) ==> Agreement(after, now))
  {
    StepEffects(l, rt, step, now);
    hide Perform, Sound, Well, Orphans, LostOwner;
    var after := Perform(l, rt, step, now).after;
    forall k | Live(after.sessions.items, k, now) && HasOwner(after, k) ensures Backed(after, k) {
      BackedAfter(l, rt, step, now, after, k);
    }
    if !LosesOwner(rt, after, now) {
      forall k | Live(after.sessions.items, k, now) ensures HasOwner(after, k) {
        OwnedAfter(l, rt, step, now, after, k);
      }
    }
    LosesExactly(l, rt, step, now);
    if Orphans(l, rt, step, now) {
      OrphanShows(l, rt, step, now);
    } else {
      forall k | Live(after.sessions.items, k, now) ensures HasOwner(after, k) {
        NotOrphaned(l, rt, step, now, k);
      }
    }
  }

  lemma LosesExactly(l: Limits, rt: Runtime, step: Step, now: real)
    requires Sound(l, rt, now) && Well(rt)
    ensures LosesOwner(rt, Perform(l, rt, step, now).after, now) <==> LostOwner(l, rt, step, now).Some?
  {
    hide Perform, Sound, Well;
    var after := Perform(l, rt, step, now).after;
    if LosesOwner(rt, after, now) {
      var x :| Live(rt.owners.items, x, now) && x !in after.owners.items;
      OwnerLostExactly(l, rt, step, now, x);
    }
    if LostOwner(l, rt, step, now).Some? {
      LostWasLive(l, rt, step, now);
      OwnerLostExactly(l, rt, step, now, LostOwner(l, rt, step, now).value);
    }
  }

  lemma LostWasLive(l: Limits, rt: Runtime, step: Step, now: real)
    requires Sound(l, rt, now) && LostOwner(l, rt, step, now).Some?
    ensures Live(rt.owners.items, LostOwner(l, rt, step, now).value, now)
    ensures LostOwner(l, rt, step, now).value != step.sid
  {
    hide DictOk, Victim;
    SoundIsOk(Ownership(l), rt.owners, now);
    DropOk(rt.owners, step.sid);
    EarliestIsEntry(Ownership(l), Drop(rt.owners, step.sid), step.sid, now);
  }

  lemma OrphanShows(l: Limits, rt: Runtime, step: Step, now: real)
    requires Sound(l, rt, now) && Well(rt) && Orphans(l, rt, step, now)
    ensures !OwnersKept(Perform(l, rt, step, now).after, now)
  {
    LostWasLive(l, rt, step, now);
    hide Perform, Sound, Well, LostOwner, StaysBound;
    var s := LostOwner(l, rt, step, now).value;
    var k :| StaysBound(l, rt, step, now, k) && BoundTo(rt, k, s);
    OwnerLostExactly(l, rt, step, now, s);
    OrphanIsBound(l, rt, step, now, k);
    assert !HasOwner(Perform(l, rt, step, now).after, k);
  }

  lemma OrphanIsBound(l: Limits, rt: Runtime, step: Step, now: real, k: Key)
    requires Sound(l, rt, now) && Well(rt) && LostOwner(l, rt, step, now).Some?
    requires StaysBound(l, rt, step, now, k) && BoundTo(rt, k, LostOwner(l, rt, step, now).value)
    ensures var items := Perform(l, rt, step, now).after.sessions.items;
            Live(items, k, now) && items[k] == rt.sessions.items[k]
  {
    LostWasLive(l, rt, step, now);
    hide Perform, Sound, Well, Victim;
    BindingKeptExactly(l, rt, step, now, k);
  }

  lemma NotOrphaned(l: Limits, rt: Runtime, step: Step, now: real, k: Key)
    requires Sound(l, rt, now) && Well(rt) && Agreement(rt, now) && !Orphans(l, rt, step, now)
    requires Live(Perform(l, rt, step, now).after.sessions.items, k, now)
    ensures HasOwner(Perform(l, rt, step, now).after, k)
  {
    StepEffects(l, rt, step, now);
    var after := Perform(l, rt, step, now).after;
    hide Perform, Sound, Well, LostOwner, StaysBound;
    if k in rt.sessions.items && after.sessions.items[k] == rt.sessions.items[k] {
      assert Live(rt.sessions.items, k, now) && Backed(rt, k);
      var s := rt.sessions.items[k].value;
      assert Live(rt.owners.items, s, now);
      OwnerLostExactly(l, rt, step, now, s);
      if s !in after.owners.items {
        LostWasLive(l, rt, step, now);
        StoredBy(l, rt, step, now);
        BindingKeptExactly(l, rt, step, now, k);
      }
    }
  }

  lemma StoredBy(l: Limits, rt: Runtime, step: Step, now: real)
    requires LostOwner(l, rt, step, now).Some?
    ensures StoresOwner(rt, step, now)
  {
  }

  lemma BackedAfter(l: Limits, rt: Runtime, step: Step, now: real, after: Runtime, k: Key)
    requires CacheOk(Ownership(l), rt.owners, now) && Agreement(rt, now)
    requires BindingsFollowOwner(l, rt, step, now, after) && OwnersAreKept(l, rt, step, now, after)
    requires Live(after.sessions.items, k, now) && HasOwner(after, k)
    ensures Backed(after, k)
  {
    hide DictOk;
    var s := after.sessions.items[k].value;
    if k in rt.sessions.items && after.sessions.items[k] == rt.sessions.items[k] {
      assert Live(rt.sessions.items, k, now) && Backed(rt, k);
      assert OwnerOf(rt, s, now) == Some(k.0);
    }
  }

  lemma OwnedAfter(l: Limits, rt: Runtime, step: Step, now: real, after: Runtime, k: Key)
    requires Agreement(rt, now) && !LosesOwner(rt, after, now)
    requires BindingsFollowOwner(l, rt, step, now, after)
    requires Live(after.sessions.items, k, now)
    ensures HasOwner(after, k)
  {
    if k in rt.sessions.items && after.sessions.items[k] == rt.sessions.items[k] {
      assert Live(rt.sessions.items, k, now) && Backed(rt, k);
      assert Live(rt.owners.items, rt.sessions.items[k].value, now);
    }
  }

  /** Under agreement no session has live bindings of two identities. */
  lemma NoSharedSession(rt: Runtime, now: real, a: Key, b: Key)
    requires Agreement(rt, now) && Live(rt.sessions.items, a, now) && Live(rt.sessions.items, b, now)
    requires rt.sessions.items[a].value == rt.sessions.items[b].value
    ensures a.0 == b.0
  {
    assert Backed(rt, a) && Backed(rt, b);
  }

  /** A live owner is never replaced: after any locked section, of whatever identity, the entry names the
      same owner, expires no earlier and is still live, or it has been evicted. */
  lemma NeverStolen(l: Limits, rt: Runtime, step: Step, now: real, s: Name)
    requires Sound(l, rt, now) && Well(rt) && OwnerOf(rt, s, now).Some?
    ensures var after := Perform(l, rt, step, now).after;
            s in after.owners.items ==>
              && OwnerOf(after, s, now) == OwnerOf(rt, s, now)
              && after.owners.items[s].expiry >= rt.owners.items[s].expiry
  {
    StepEffects(l, rt, step, now);
    hide Perform, DictOk, Well;
  }

  predicate Settles(step: Step) {
    step.Prefer? || step.Claim? || step.FinalizePreferred? || step.FinalizeClaim?
  }

  /** Claiming and finalizing are refused exactly if another identity is the live owner or holds the
      pending claim; recording a created session looks at the owner alone. */
  lemma RefusedExactly(l: Limits, rt: Runtime, step: Step, now: real)
    requires Sound(l, rt, now) && Well(rt)
    ensures Settles(step) ==>
              (Perform(l, rt, step, now).outcome == Forbidden <==>
                || OwnerOf(rt, step.sid, now) !in {None, Some(step.identity)}
                || (step.sid in rt.pending && rt.pending[step.sid] != step.identity))
    ensures step.Record? ==>
              (Perform(l, rt, step, now).outcome == Forbidden <==>
                OwnerOf(rt, step.sid, now) !in {None, Some(step.identity)})
  {
    hide DictOk, SoundCache, Stored, Lookup, Drop;
    if Settles(step) || step.Record? {
      LookupSound(Ownership(l), rt.owners, step.sid, now);
    }
  }

  /** Preferring and claiming leave a claim to settle exactly if nobody owns the session, and then nobody
      does afterwards either. */
  lemma ClaimedExactly(l: Limits, rt: Runtime, step: Step, now: real)
    requires Sound(l, rt, now) && Well(rt) && (step.Prefer? || step.Claim?)
    requires Perform(l, rt, step, now).outcome != Forbidden
    ensures Perform(l, rt, step, now).outcome == Taken(OwnerOf(rt, step.sid, now).None?)
    ensures OwnerOf(rt, step.sid, now).None? ==> step.sid !in Perform(l, rt, step, now).after.owners.items
    ensures step.Prefer? && OwnerOf(rt, step.sid, now).Some? ==>
              var items, k := Perform(l, rt, step, now).after.sessions.items, (step.identity, step.context);
              k in items && items[k] == Item(step.sid, now + l.ttl as real)
  {
    hide DictOk, SoundCache, Stored, Lookup;
    LookupSound(Ownership(l), rt.owners, step.sid, now);
    if step.Prefer? {
      StoredSound(Bindings(l), rt.sessions, (step.identity, step.context), step.sid, now);
      OwnedMeansEnabled(l, rt, step.sid, now);
    }
  }

  lemma OwnedMeansEnabled(l: Limits, rt: Runtime, sid: Name, now: real)
    requires Sound(l, rt, now)
    ensures OwnerOf(rt, sid, now).Some? ==> Enabled(Bindings(l))
  {
  }

  /** A successful finalization makes the caller the owner and settles the claim. */
  lemma FinalizedOwns(l: Limits, rt: Runtime, step: Step, now: real)
    requires Sound(l, rt, now) && Well(rt) && (step.FinalizePreferred? || step.FinalizeClaim?)
    requires Perform(l, rt, step, now).outcome != Forbidden
    ensures var after := Perform(l, rt, step, now).after;
            && step.sid !in after.pending
            && (l.ttl > 0 && l.maxsize > 0 ==> OwnerOf(after, step.sid, now) == Some(step.identity))
            && (l.ttl > 0 && l.maxsize > 0 && step.FinalizePreferred? ==>
                 var k := (step.identity, step.context);
                 Live(after.sessions.items, k, now) && after.sessions.items[k].value == step.sid)
  {
    hide DictOk, SoundCache, Stored, Lookup;
    LookupSound(Ownership(l), rt.owners, step.sid, now);
    StoredSound(Ownership(l), Lookup(Ownership(l), rt.owners, step.sid, now).dict, step.sid, step.identity, now);
    if step.FinalizePreferred? {
      StoredSound(Bindings(l), rt.sessions, (step.identity, step.context), step.sid, now);
    }
  }

  // --------------------------------------------------------------- claims

  /** A pending claim changes hands only through its holder: whatever another identity does, it stays. */
  lemma ClaimsAreKept(l: Limits, rt: Runtime, step: Step, now: real, s: Name)
    requires Well(rt) && s in rt.pending && rt.pending[s] != step.identity
    ensures PendingOn(Perform(l, rt, step, now).after, s) == Some(rt.pending[s])
  {
    hide DictOk, Stored, Lookup, Drop;
  }

  /** What the locked sections answer, and what that says about the claims. */
  lemma Outcomes(l: Limits, rt: Runtime, step: Step, now: real)
    requires Well(rt)
    ensures var r := Perform(l, rt, step, now);
            && (step.Prefer? || step.Claim? ==>
                 || (r.outcome in {Forbidden, Taken(false)} && r.after.pending == rt.pending)
                 || (r.outcome == Taken(true) && r.after.pending == rt.pending[step.sid := step.identity]
                     && PendingOn(rt, step.sid) in {None, Some(step.identity)}))
            && (step.Look? ==> r.outcome.Existing? || r.outcome.Awaits?)
            && (step.Record? || step.CreateFailed? ==> r.outcome in {Forbidden, Done})
            && (step.FinalizePreferred? || step.FinalizeClaim? ==>
                 || (r.outcome == Forbidden && r.after.pending == rt.pending)
                 || (r.outcome == Done && r.after.pending == rt.pending - {step.sid}
                     && PendingOn(rt, step.sid) in {None, Some(step.identity)}))
            && (step.Release? ==>
                 r.after.pending == if PendingOn(rt, step.sid) == Some(step.identity) then rt.pending - {step.sid}
                                    else rt.pending)
            && (!Settles(step) && !step.Release? ==> r.after.pending == rt.pending)
  {
    hide DictOk, Lookup, Stored, Drop;
  }

  /** A pending claim shuts every other identity out. */
  lemma ClaimBlocked(l: Limits, rt: Runtime, i: Name, j: Name, s: Name, now: real)
    requires Well(rt) && PendingOn(rt, s) == Some(i) && i != j
    ensures Perform(l, rt, Claim(j, s), now).outcome == Forbidden
  {
    hide DictOk, Lookup;
  }

  /** A new claim is the caller's, on the session it asked for. */
  lemma ClaimsAreMine(l: Limits, rt: Runtime, step: Step, now: real, s: Name)
    requires Well(rt) && s in Perform(l, rt, step, now).after.pending
    ensures var after := Perform(l, rt, step, now);
            || PendingOn(rt, s) == Some(after.after.pending[s])
            || (step.identity == after.after.pending[s] && Settles(step) && step.sid == s
                && after.outcome == Taken(true))
  {
    hide DictOk, Stored, Lookup, Drop;
  }

  predicate EndsCreate(step: Step, outcome: Outcome) {
    step.CreateFailed? || (step.Record? && outcome == Done)
  }

  /** What the locked sections do to the register of creates: looking up adds the caller's own key if it is
      not there, a create's end removes it exactly if it is still that create's, cancelling removes it. */
  lemma RegisterEffects(l: Limits, rt: Runtime, step: Step, now: real)
    requires Well(rt)
    ensures var r := Perform(l, rt, step, now);
            && (step.Look? ==>
                 var k := (step.identity, step.context);
                 || (r.outcome.Existing? && r.after.inflight == rt.inflight)
                 || (k in rt.inflight && r.outcome == Awaits(rt.inflight[k]) && r.after.inflight == rt.inflight)
                 || (k !in rt.inflight && r.outcome == Awaits(step.task) && r.after.inflight == rt.inflight[k := step.task]))
            && (EndsCreate(step, r.outcome) ==>
                 var k := (step.identity, step.context);
                 r.after.inflight == if k in rt.inflight && rt.inflight[k] == step.task then rt.inflight - {k}
                                     else rt.inflight)
            && (step.CancelRunning? ==> r.after.inflight == rt.inflight - {(step.identity, step.context)})
            && (!step.Look? && !EndsCreate(step, r.outcome) && !step.CancelRunning? ==> r.after.inflight == rt.inflight)
            && (!step.Look? ==> !r.outcome.Awaits?)
  {
    hide DictOk, Lookup, Stored, Drop;
  }

  /** Looking up a context finds its live binding, and nothing else. */
  lemma LookedUpExactly(l: Limits, rt: Runtime, i: Name, c: Name, task: nat, s: Name, now: real)
    requires Sound(l, rt, now) && Well(rt)
    ensures Perform(l, rt, Look(i, c, task), now).outcome == Existing(s) <==>
            Live(rt.sessions.items, (i, c), now) && rt.sessions.items[(i, c)].value == s
  {
    hide DictOk, SoundCache, Stored, Lookup;
    LookupSound(Bindings(l), rt.sessions, (i, c), now);
  }

  /** Cancelling forgets the context's binding. */
  lemma CancelForgets(l: Limits, rt: Runtime, i: Name, c: Name, now: real)
    requires Well(rt)
    ensures var after := Perform(l, rt, CancelRunning(i, c), now).after;
            after.sessions.items == rt.sessions.items - {(i, c)} && after.owners == rt.owners && after.pending == rt.pending
  {
    hide DictOk;
  }

  /** Nobody owns a session that somebody else is claiming. */
  ghost predicate Exclusive(rt: Runtime, now: real) {
    forall s :: s in rt.pending ==> OwnerOf(rt, s, now) in {None, Some(rt.pending[s])}
  }

  /** Recording a created session does not look at the claims: this one overrides somebody else's, because
      nobody owns the session yet. */
  predicate OverridesClaim(l: Limits, rt: Runtime, step: Step, now: real) {
    && Enabled(Ownership(l)) && step.Record?
    && PendingOn(rt, step.sid) !in {None, Some(step.identity)}
    && OwnerOf(rt, step.sid, now).None?
  }

  /** Every locked section keeps ownership and claims exclusive, except exactly those recordings. */
  lemma ExclusiveKept(l: Limits, rt: Runtime, step: Step, now: real)
    requires Sound(l, rt, now) && Well(rt) && Exclusive(rt, now)
    ensures Exclusive(Perform(l, rt, step, now).after, now) <==> !OverridesClaim(l, rt, step, now)
  {
    StepEffects(l, rt, step, now);
    var after := Perform(l, rt, step, now).after;
    if OverridesClaim(l, rt, step, now) {
      Overridden(l, rt, step, now);
    } else {
      forall s | s in after.pending ensures OwnerOf(after, s, now) in {None, Some(after.pending[s])} {
        ExclusiveAt(l, rt, step, now, s);
      }
    }
  }

  lemma Overridden(l: Limits, rt: Runtime, step: Step, now: real)
    requires Sound(l, rt, now) && Well(rt) && Exclusive(rt, now) && OverridesClaim(l, rt, step, now)
    ensures !Exclusive(Perform(l, rt, step, now).after, now)
  {
    var after := Perform(l, rt, step, now).after;
    ClaimsAreKept(l, rt, step, now, step.sid);
    RefusedExactly(l, rt, step, now);
    hide DictOk, SoundCache, Stored, Lookup;
    LookupSound(Ownership(l), rt.owners, step.sid, now);
    var looked := Lookup(Ownership(l), rt.owners, step.sid, now).dict;
    StoredSound(Bindings(l), rt.sessions, (step.identity, step.context), step.sid, now);
    StoredSound(Ownership(l), looked, step.sid, step.identity, now);
    assert OwnerOf(after, step.sid, now) == Some(step.identity);
  }

  lemma ExclusiveAt(l: Limits, rt: Runtime, step: Step, now: real, s: Name)
    requires Sound(l, rt, now) && Well(rt) && Exclusive(rt, now) && EffectsOk(l, rt, step, now)
    requires !OverridesClaim(l, rt, step, now)
    requires s in Perform(l, rt, step, now).after.pending
    ensures var after := Perform(l, rt, step, now).after; OwnerOf(after, s, now) in {None, Some(after.pending[s])}
  {
    hide DictOk, SoundCache, BindingsFollowOwner;
    ClaimsAreMine(l, rt, step, now, s);
    RefusedExactly(l, rt, step, now);
    if s in rt.pending && rt.pending[s] != step.identity {
      ClaimsAreKept(l, rt, step, now, s);
    }
    if step.Record? {
      RecordOutcome(l, rt, step, now);
    }
    hide Perform;
  }

  /** While claims are exclusive, the holder of a claim can always finalize it. */
  lemma HolderCanFinalize(l: Limits, rt: Runtime, step: Step, now: real)
    requires Sound(l, rt, now) && Well(rt) && Exclusive(rt, now)
    requires (step.FinalizePreferred? || step.FinalizeClaim?) && PendingOn(rt, step.sid) == Some(step.identity)
    ensures Perform(l, rt, step, now).outcome == Done
  {
    RefusedExactly(l, rt, step, now);
    hide Owner, Bind, Own;
  }

  /** And what `session_owner_matches` answers is then what claiming would. */
  lemma VerdictPredictsClaim(l: Limits, rt: Runtime, i: Name, s: Name, now: real)
    requires Sound(l, rt, now) && Well(rt) && Exclusive(rt, now)
    ensures Perform(l, rt, OwnerMatches(i, s), now).outcome == Verdict(Some(false)) <==>
            Perform(l, rt, Claim(i, s), now).outcome == Forbidden
    ensures Perform(l, rt, OwnerMatches(i, s), now).outcome == Verdict(None) <==>
            OwnerOf(rt, s, now).None? && PendingOn(rt, s).None?
  {
    hide DictOk, SoundCache, Stored, Lookup;
    LookupSound(Ownership(l), rt.owners, s, now);
  }

  lemma RecordOutcome(l: Limits, rt: Runtime, step: Step, now: real)
    requires Well(rt) && step.Record?
    ensures Perform(l, rt, step, now).outcome in {Forbidden, Done}
    ensures Perform(l, rt, step, now).after.pending == rt.pending
  {
    hide DictOk, Stored, Lookup;
  }

  // ------------------------------------------------------------- whole runs

  /** One locked section, with the clock reading it takes. */
  datatype Section = Section(step: Step, now: real)

  /** The runtime after an interleaving of locked sections, starting from the empty one. */
  function RunAfter(l: Limits, run: seq<Section>): (rt: Runtime)
    ensures Well(rt)
  {
    if run == [] then EMPTY
    else
      var rt, last := RunAfter(l, run[..|run| - 1]), run[|run| - 1];
      StepWell(l, rt, last.step, last.now);
      Perform(l, rt, last.step, last.now).after
  }

  lemma RunAfterSnoc(l: Limits, run: seq<Section>, last: Section)
    ensures RunAfter(l, run + [last]) == Perform(l, RunAfter(l, run), last.step, last.now).after
  {
    hide Perform, Well;
    assert (run + [last])[..|run + [last]| - 1] == run;
  }

  ghost predicate Ordered(run: seq<Section>) {
    forall i, j :: 0 <= i <= j < |run| ==> run[i].now <= run[j].now
  }

  ghost predicate Until(run: seq<Section>, now: real) {
    Ordered(run) && (run != [] ==> run[|run| - 1].now <= now)
  }

  lemma Before(run: seq<Section>, now: real)
    requires Until(run, now) && run != []
    ensures Until(run[..|run| - 1], run[|run| - 1].now)
  {
  }

  /** Time passing keeps everything. */
  lemma TimePasses(l: Limits, rt: Runtime, t0: real, t1: real)
    requires t0 <= t1 && Sound(l, rt, t0)
    ensures Sound(l, rt, t1)
    ensures Agreement(rt, t0) ==> Agreement(rt, t1)
    ensures Exclusive(rt, t0) ==> Exclusive(rt, t1)
  {
    hide DictOk;
    assert forall k :: Live(rt.sessions.items, k, t1) ==> Live(rt.sessions.items, k, t0);
  }

  lemma {:induction false} RunSound(l: Limits, run: seq<Section>, now: real)
    requires Until(run, now)
    ensures Sound(l, RunAfter(l, run), now)
  {
    if run != [] {
      var init, last := run[..|run| - 1], run[|run| - 1];
      Before(run, now);
      RunSound(l, init, last.now);
      StepEffects(l, RunAfter(l, init), last.step, last.now);
      hide Perform, Sound;
      TimePasses(l, RunAfter(l, run), last.now, now);
    }
  }

  /** Both caches keep within their size, and give up a live entry only if they are full. */
  lemma CachesAreBounded(l: Limits, run: seq<Section>, now: real, k: Key, s: Name)
    requires Until(run, now)
    ensures var rt := RunAfter(l, run);
            && (|rt.sessions.order| <= l.maxsize || rt.sessions.items == map[])
            && (|rt.owners.order| <= l.maxsize || rt.owners.items == map[])
            && (Victim(Bindings(l), rt.sessions, k, now).Some? ==> |rt.sessions.order| == l.maxsize)
            && (s !in rt.owners.items && Victim(Ownership(l), rt.owners, s, now).Some? ==>
                  |rt.owners.order| == l.maxsize)
  {
    RunSound(l, run, now);
  }

  /** No section of the run had to make the owner cache evict a live entry. */
  ghost predicate KeepsOwners(l: Limits, run: seq<Section>) {
    run == [] ||
    var init, last := run[..|run| - 1], run[|run| - 1];
    KeepsOwners(l, init) && LostOwner(l, RunAfter(l, init), last.step, last.now).None?
  }

  /** In every interleaving of locked sections and clock readings that never made the owner cache evict a
      live entry, bindings and owners agree. */
  lemma {:induction false} BindingsAgreeWithOwners(l: Limits, run: seq<Section>, now: real)
    requires Until(run, now) && KeepsOwners(l, run)
    ensures Agreement(RunAfter(l, run), now)
  {
    if run != [] {
      var init, last := run[..|run| - 1], run[|run| - 1];
      Before(run, now);
      BindingsAgreeWithOwners(l, init, last.now);
      RunSound(l, init, last.now);
      AgreementKept(l, RunAfter(l, init), last.step, last.now);
      StepEffects(l, RunAfter(l, init), last.step, last.now);
      hide Perform, Sound, Agreement, LosesOwner, LostOwner, Orphans;
      TimePasses(l, RunAfter(l, run), last.now, now);
    }
  }

  /** No section of the run cost a session that stayed bound its owner. */
  ghost predicate NeverOrphans(l: Limits, run: seq<Section>) {
    run == [] ||
    var init, last := run[..|run| - 1], run[|run| - 1];
    NeverOrphans(l, init) && !Orphans(l, RunAfter(l, init), last.step, last.now)
  }

  /** Bindings and owners agreed after every section of the run. */
  ghost predicate AlwaysAgrees(l: Limits, run: seq<Section>) {
    run == [] ||
    (AlwaysAgrees(l, run[..|run| - 1]) && Agreement(RunAfter(l, run), run[|run| - 1].now))
  }

  /** Bindings and owners agree throughout an interleaving if and only if no section of it orphaned a binding. */
  lemma {:induction false} AgreementExactly(l: Limits, run: seq<Section>)
    requires Ordered(run)
    ensures AlwaysAgrees(l, run) <==> NeverOrphans(l, run)
  {
    if run != [] {
      var init := run[..|run| - 1];
      Before(run, run[|run| - 1].now);
      AgreementExactly(l, init);
      hide RunAfter, Perform, Sound, Agreement, Orphans, Well, Ordered;
      if AlwaysAgrees(l, init) {
        AgreementHolds(l, init, run[|run| - 1].now);
        RunSound(l, init, run[|run| - 1].now);
        SectionAgrees(l, run);
      }
    }
  }

  lemma AgreementHolds(l: Limits, run: seq<Section>, now: real)
    requires Until(run, now) && AlwaysAgrees(l, run)
    ensures Agreement(RunAfter(l, run), now)
  {
    if run != [] {
      var t := run[|run| - 1].now;
      hide RunAfter, Agreement, Sound;
      RunSound(l, run, t);
      TimePasses(l, RunAfter(l, run), t, now);
    }
  }

  lemma SectionAgrees(l: Limits, run: seq<Section>)
    requires run != []
    requires var rt := RunAfter(l, run[..|run| - 1]);
             Sound(l, rt, run[|run| - 1].now) && Agreement(rt, run[|run| - 1].now)
    ensures var last := run[|run| - 1];
            Agreement(RunAfter(l, run), last.now)
            <==> !Orphans(l, RunAfter(l, run[..|run| - 1]), last.step, last.now)
  {
    var last := run[|run| - 1];
    hide Perform, Sound, Agreement, Orphans, Well;
    AgreementKept(l, RunAfter(l, run[..|run| - 1]), last.step, last.now);
  }

  /** So no session has live bindings of two identities. */
  lemma OneIdentityPerSession(l: Limits, run: seq<Section>, now: real, a: Key, b: Key)
    requires Until(run, now) && KeepsOwners(l, run)
    requires var items := RunAfter(l, run).sessions.items;
             Live(items, a, now) && Live(items, b, now) && items[a].value == items[b].value
    ensures a.0 == b.0
  {
    BindingsAgreeWithOwners(l, run, now);
    NoSharedSession(RunAfter(l, run), now, a, b);
  }

  /** From section p on, the owner entry of s never lapsed: no section found it expired or evicted it. */
  ghost predicate NeverLapsed(l: Limits, run: seq<Section>, p: nat, s: Name)
    requires p <= |run|
  {
    p == |run| ||
    var init := run[..|run| - 1];
    && NeverLapsed(l, init, p, s)
    && Live(RunAfter(l, init).owners.items, s, run[|run| - 1].now)
    && s in RunAfter(l, run).owners.items
  }

  /** Ownership is never stolen: between any two points of any interleaving the owner of a session changes
      only if the entry expired or was evicted in between. */
  lemma {:induction false} OwnershipNeverStolen(l: Limits, run: seq<Section>, p: nat, s: Name)
    requires Ordered(run) && p <= |run| && NeverLapsed(l, run, p, s)
    requires s in RunAfter(l, run[..p]).owners.items
    ensures s in RunAfter(l, run).owners.items
    ensures RunAfter(l, run).owners.items[s].value == RunAfter(l, run[..p]).owners.items[s].value
  {
    if p == |run| {
      assert run[..p] == run;
    } else {
      var init, last := run[..|run| - 1], run[|run| - 1];
      assert init[..p] == run[..p];
      OwnershipNeverStolen(l, init, p, s);
      Before(run, last.now);
      RunSound(l, init, last.now);
      NeverStolen(l, RunAfter(l, init), last.step, last.now, s);
      hide Perform, Sound;
    }
  }

  /** Every created id is new to the claims: no section records a session that another identity is claiming. */
  ghost predicate CreatesAreFresh(l: Limits, run: seq<Section>) {
    run == [] ||
    var init, last := run[..|run| - 1], run[|run| - 1];
    CreatesAreFresh(l, init) && !OverridesClaim(l, RunAfter(l, init), last.step, last.now)
  }

  /** In every interleaving whose created ids are fresh, nobody owns what somebody else is claiming, so the
      holder of a claim can finalize it at any time. */
  lemma {:induction false} ClaimsAreExclusive(l: Limits, run: seq<Section>, now: real)
    requires Until(run, now) && CreatesAreFresh(l, run)
    ensures Exclusive(RunAfter(l, run), now)
  {
    if run != [] {
      var init, last := run[..|run| - 1], run[|run| - 1];
      Before(run, now);
      ClaimsAreExclusive(l, init, last.now);
      RunSound(l, init, last.now);
      ExclusiveKept(l, RunAfter(l, init), last.step, last.now);
      StepEffects(l, RunAfter(l, init), last.step, last.now);
      hide Perform, Sound, Exclusive, OverridesClaim;
      TimePasses(l, RunAfter(l, run), last.now, now);
    }
  }

  lemma ClaimCanBeFinalized(l: Limits, run: seq<Section>, step: Step, now: real)
    requires Until(run, now) && CreatesAreFresh(l, run)
    requires (step.FinalizePreferred? || step.FinalizeClaim?)
    requires PendingOn(RunAfter(l, run), step.sid) == Some(step.identity)
    ensures Perform(l, RunAfter(l, run), step, now).outcome == Done
  {
    ClaimsAreExclusive(l, run, now);
    RunSound(l, run, now);
    HolderCanFinalize(l, RunAfter(l, run), step, now);
  }

  /** Freshness is needed: a create that returns an id under somebody else's claim takes the session, and
      the holder of the claim is then refused. */
  lemma CreateIgnoresClaims(l: Limits, a: Name, b: Name, c: Name, s: Name, now: real)
    requires Enabled(Ownership(l)) && a != b
    ensures var claimed := RunAfter(l, [Section(Claim(b, s), now)]);
            var recorded := RunAfter(l, [Section(Claim(b, s), now), Section(Record(a, c, 0, s), now)]);
            && PendingOn(claimed, s) == Some(b)
            && OwnerOf(recorded, s, now) == Some(a)
            && Perform(l, recorded, FinalizeClaim(b, s), now).outcome == Forbidden
  {
    var first := [Section(Claim(b, s), now)];
    var run := [Section(Claim(b, s), now), Section(Record(a, c, 0, s), now)];
    assert first[..0] == [] && run[..1] == first;
    assert RunAfter(l, []) == EMPTY;
    var claimed := RunAfter(l, first);
    assert claimed == EMPTY.(pending := map[s := b]);
    RunSound(l, first, now);
    RunSound(l, run, now);
    RefusedExactly(l, claimed, Record(a, c, 0, s), now);
    var recorded := RunAfter(l, run);
    RecordedOwns(l, claimed, Record(a, c, 0, s), now);
    RefusedExactly(l, recorded, FinalizeClaim(b, s), now);
  }

  /** Recording a created session makes the caller its owner, binds the context and leaves the claims alone. */
  lemma RecordedOwns(l: Limits, rt: Runtime, step: Step, now: real)
    requires Sound(l, rt, now) && Well(rt) && step.Record? && l.ttl > 0 && l.maxsize > 0
    requires Perform(l, rt, step, now).outcome != Forbidden
    ensures var after, k := Perform(l, rt, step, now).after, (step.identity, step.context);
            && OwnerOf(after, step.sid, now) == Some(step.identity)
            && Live(after.sessions.items, k, now) && after.sessions.items[k].value == step.sid
            && after.pending == rt.pending
  {
    hide DictOk, SoundCache, Stored, Lookup;
    LookupSound(Ownership(l), rt.owners, step.sid, now);
    StoredSound(Ownership(l), Lookup(Ownership(l), rt.owners, step.sid, now).dict, step.sid, step.identity, now);
    StoredSound(Bindings(l), rt.sessions, (step.identity, step.context), step.sid, now);
  }

  /** A dictionary of two entries, in insertion order. */
  function Two<K(==, !new)>(x: K, vx: string, ex: real, y: K, vy: string, ey: real): Dict<K> {
    Dict([x, y], map[x := Item(vx, ex), y := Item(vy, ey)])
  }

  lemma FirstTwoStored<K(!new)>(c: Config, x: K, vx: string, tx: real, y: K, vy: string, ty: real)
    requires x != y && Enabled(c) && c.maxsize == 2
    ensures DictOk(Stored(c, Dict([], map[]), x, vx, tx))
    ensures y !in Stored(c, Dict([], map[]), x, vx, tx).items
    ensures Stored(c, Stored(c, Dict([], map[]), x, vx, tx), y, vy, ty)
         == Two(x, vx, tx + c.ttl as real, y, vy, ty + c.ttl as real)
  {
    var one := Dict([x], map[x := Item(vx, tx + c.ttl as real)]);
    assert Stored(c, Dict([], map[]), x, vx, tx) == one by {
      SetIsEvicted(c, Dict([], map[]), x, vx, tx);
    }
    SetIsEvicted(c, one, y, vy, ty);
  }

  /** Setting a third key where there is room for two evicts the earlier of the first two to expire. */
  lemma ThirdStored<K(!new)>(c: Config, x: K, vx: string, ex: real, y: K, vy: string, ey: real, z: K, vz: string, now: real)
    requires x != y && y != z && x != z && Enabled(c) && c.maxsize == 2
    requires now < ex && now < ey && ex != ey && ex <= now + c.ttl as real && ey <= now + c.ttl as real
    ensures DictOk(Two(x, vx, ex, y, vy, ey))
    ensures var e := Stored(c, Two(x, vx, ex, y, vy, ey), z, vz, now).items;
            && (x in e <==> ex > ey) && (y in e <==> ey > ex)
            && (x in e ==> e[x] == Item(vx, ex)) && (y in e ==> e[y] == Item(vy, ey))
  {
    hide Evicted, Stored;
    var d := Two(x, vx, ex, y, vy, ey);
    assert DictOk(d);
    SetIsEvicted(c, d, z, vz, now);
    ThreeEvicted(Put(d, z, Item(vz, now + c.ttl as real)), x, y, z, now);
  }

  lemma ThreeEvicted<K(!new)>(p: Dict<K>, x: K, y: K, z: K, now: real)
    requires DictOk(p) && p.order == [x, y, z] && x != y && x in p.items && y in p.items && z in p.items
    requires now < p.items[x].expiry <= p.items[z].expiry && now < p.items[y].expiry <= p.items[z].expiry
    requires p.items[x].expiry != p.items[y].expiry
    ensures Evicted(p, 2, now) == Drop(p, if p.items[x].expiry < p.items[y].expiry then x else y)
  {
    hide Evicted, DictOk, Drop;
    EarliestIsEvicted(p, 2, now, if p.items[x].expiry < p.items[y].expiry then 0 else 1);
  }

  /** Keeping the owners is needed: with room for two, asking about the first of two sessions refreshes its
      owner entry but not its binding, so a third session evicts the owner of the second and the binding
      of the first. The second session is then bound to a, and anybody may claim it. */
  lemma EvictedOwnerBreaksAgreement(a: Name, b: Name, c1: Name, c2: Name, c3: Name, s1: Name, s2: Name, s3: Name)
    requires a != b && c1 != c2 && c2 != c3 && c1 != c3 && s1 != s2 && s2 != s3 && s1 != s3
    ensures var l := Limits(10, 2);
            var run := [Section(Record(a, c1, 0, s1), 0.0), Section(Record(a, c2, 1, s2), 1.0),
                        Section(OwnerMatches(a, s1), 2.0), Section(Record(a, c3, 2, s3), 3.0)];
            && !KeepsOwners(l, run) && !Agreement(RunAfter(l, run), 3.0)
            && Live(RunAfter(l, run).sessions.items, (a, c2), 3.0)
            && RunAfter(l, run).sessions.items[(a, c2)].value == s2
            && Perform(l, RunAfter(l, run), Claim(b, s2), 3.0).outcome == Taken(true)
  {
    hide Stored, Lookup, Two, DictOk, KeepsOwners, SoundCache;
    var l := Limits(10, 2);
    var r0 := Section(Record(a, c1, 0, s1), 0.0);
    var r1 := Section(Record(a, c2, 1, s2), 1.0);
    var r2 := Section(OwnerMatches(a, s1), 2.0);
    var r3 := Section(Record(a, c3, 2, s3), 3.0);
    var run := [r0, r1, r2, r3];
    TwoRecorded(a, c1, c2, s1, s2);
    assert run[..3] == [r0, r1, r2] && [r0, r1, r2][..2] == [r0, r1];
    var rt2, rt3, rt4 := RunAfter(l, [r0, r1]), RunAfter(l, [r0, r1, r2]), RunAfter(l, run);
    assert rt3 == Perform(l, rt2, OwnerMatches(a, s1), 2.0).after;
    Refreshed(a, c1, c2, s1, s2, rt2);
    assert rt4 == Perform(l, rt3, Record(a, c3, 2, s3), 3.0).after;
    ThirdRecorded(a, c1, c2, c3, s1, s2, s3, rt3);
    RunSound(l, run, 3.0);
    hide RunAfter, Perform;
    assert LosesOwner(rt3, rt4, 3.0);
    LossShows(l, run);
    assert !Backed(rt4, (a, c2));
    FreeToClaim(l, rt4, b, s2, 3.0);
  }

  lemma LossShows(l: Limits, run: seq<Section>)
    requires run != [] && Ordered(run)
    requires LosesOwner(RunAfter(l, run[..|run| - 1]), RunAfter(l, run), run[|run| - 1].now)
    ensures !KeepsOwners(l, run)
  {
    var init, last := run[..|run| - 1], run[|run| - 1];
    RunSound(l, init, last.now);
    hide Perform, LosesOwner, LostOwner, Sound, Well;
    LosesExactly(l, RunAfter(l, init), last.step, last.now);
  }

  /** Preferring a session of which the runtime knows no owner, and at most the caller's own claim. */
  lemma PreferUnowned(l: Limits, rt: Runtime, step: Step, now: real)
    requires Well(rt) && step.Prefer? && rt.owners.items == map[] && PendingOn(rt, step.sid) in {None, Some(step.identity)}
    ensures var r := Perform(l, rt, step, now);
            r.outcome == Taken(true) && r.after.owners.items == map[] && PendingOn(r.after, step.sid) == Some(step.identity)
  {
    hide DictOk, Stored;
  }

  /** One reading per section is needed: if the binding is stored with a later reading than the one that refreshed
      the owner, the owner entry expires first, by as much. */
  lemma SeparateReadingsLag(l: Limits, rt: Runtime, i: Name, c: Name, sid: Name, t0: real, t1: real)
    requires Sound(l, rt, t0) && Well(rt) && t0 <= t1 && OwnerOf(rt, sid, t0) == Some(i)
    ensures Well(Owner(l, rt, sid, t0).0)
    ensures var after := Bind(l, Owner(l, rt, sid, t0).0, (i, c), sid, t1);
            && sid in after.owners.items && (i, c) in after.sessions.items
            && after.sessions.items[(i, c)].expiry - after.owners.items[sid].expiry == t1 - t0
            && (Backed(after, (i, c)) <==> t0 == t1)
  {
    OwnerWell(l, rt, sid, t0);
    OwnedMeansEnabled(l, rt, sid, t0);
    TimePasses(l, rt, t0, t1);
    hide DictOk, SoundCache, Stored, Lookup;
    LookupSound(Ownership(l), rt.owners, sid, t0);
    StoredSound(Bindings(l), rt.sessions, (i, c), sid, t1);
  }

  /** What nobody owns and nobody claims, anybody can claim. */
  lemma FreeToClaim(l: Limits, rt: Runtime, i: Name, s: Name, now: real)
    requires Sound(l, rt, now) && Well(rt) && OwnerOf(rt, s, now).None? && s !in rt.pending
    ensures Perform(l, rt, Claim(i, s), now).outcome == Taken(true)
  {
    hide DictOk, SoundCache, Lookup;
    LookupSound(Ownership(l), rt.owners, s, now);
  }

  /** Recording a session without an owner stores both entries. */
  lemma RecordUnowned(l: Limits, rt: Runtime, i: Name, c: Name, task: nat, s: Name, now: real)
    requires Well(rt) && s !in rt.owners.items && (i, c) !in rt.inflight
    ensures Perform(l, rt, Record(i, c, task, s), now).after
         == rt.(sessions := Stored(Bindings(l), rt.sessions, (i, c), s, now),
                owners := Stored(Ownership(l), rt.owners, s, i, now))
  {
    hide Stored, DictOk;
  }

  lemma TwoRecorded(a: Name, c1: Name, c2: Name, s1: Name, s2: Name)
    requires c1 != c2 && s1 != s2
    ensures RunAfter(Limits(10, 2), [Section(Record(a, c1, 0, s1), 0.0), Section(Record(a, c2, 1, s2), 1.0)])
         == Runtime(Two((a, c1), s1, 10.0, (a, c2), s2, 11.0), Two(s1, a, 10.0, s2, a, 11.0), map[], map[])
  {
    var l := Limits(10, 2);
    var r0, r1 := Section(Record(a, c1, 0, s1), 0.0), Section(Record(a, c2, 1, s2), 1.0);
    assert [r0][..0] == [] && [r0, r1][..1] == [r0];
    var rt0, rt1 := RunAfter(l, []), RunAfter(l, [r0]);
    assert rt0 == EMPTY && rt1 == Perform(l, rt0, r0.step, 0.0).after;
    assert RunAfter(l, [r0, r1]) == Perform(l, rt1, r1.step, 1.0).after;
    hide RunAfter, Perform, Stored, DictOk;
    FirstTwoStored(Bindings(l), (a, c1), s1, 0.0, (a, c2), s2, 1.0);
    FirstTwoStored(Ownership(l), s1, a, 0.0, s2, a, 1.0);
    RecordUnowned(l, rt0, a, c1, 0, s1, 0.0);
    RecordUnowned(l, rt1, a, c2, 1, s2, 1.0);
  }

  lemma Refreshed(a: Name, c1: Name, c2: Name, s1: Name, s2: Name, rt: Runtime)
    requires c1 != c2 && s1 != s2
    requires rt == Runtime(Two((a, c1), s1, 10.0, (a, c2), s2, 11.0), Two(s1, a, 10.0, s2, a, 11.0), map[], map[])
    requires Well(rt)
    ensures Perform(Limits(10, 2), rt, OwnerMatches(a, s1), 2.0).after
         == rt.(owners := Two(s1, a, 12.0, s2, a, 11.0))
    ensures Live(Two<Name>(s1, a, 12.0, s2, a, 11.0).items, s2, 3.0)
  {
  }

  lemma ThirdRecorded(a: Name, c1: Name, c2: Name, c3: Name, s1: Name, s2: Name, s3: Name, rt: Runtime)
    requires c1 != c2 && c2 != c3 && c1 != c3 && s1 != s2 && s2 != s3 && s1 != s3
    requires rt == Runtime(Two((a, c1), s1, 10.0, (a, c2), s2, 11.0), Two(s1, a, 12.0, s2, a, 11.0), map[], map[])
    requires Well(rt)
    ensures var after := Perform(Limits(10, 2), rt, Record(a, c3, 2, s3), 3.0).after;
            && (a, c2) in after.sessions.items && after.sessions.items[(a, c2)] == Item(s2, 11.0)
            && s2 !in after.owners.items && after.pending == map[]
  {
    var l := Limits(10, 2);
    ThirdStored(Bindings(l), (a, c1), s1, 10.0, (a, c2), s2, 11.0, (a, c3), s3, 3.0);
    ThirdStored(Ownership(l), s1, a, 12.0, s2, a, 11.0, s3, a, 3.0);
    RecordUnowned(l, rt, a, c3, 2, s3, 3.0);
    hide Stored, Perform, DictOk;
  }

  lemma CancelUnfolds(l: Limits, rt: Runtime, i: Name, c: Name)
    requires Well(rt)
    ensures var after := rt.(sessions := Drop(rt.sessions, (i, c)), inflight := rt.inflight - {(i, c)});
            Well(after) && Perform(l, rt, CancelRunning(i, c), 0.0).after == after
  {
    StepWell(l, rt, CancelRunning(i, c), 0.0);
    hide DictOk, Drop;
  }

  lemma FinalizeUnfolds(l: Limits, rt: Runtime, step: Step, now: real)
    requires Well(rt) && step.FinalizePreferred?
    ensures var (looked, owner) := Owner(l, rt, step.sid, now);
            var k := (step.identity, step.context);
            && Well(looked) && Well(Own(l, looked, step.sid, step.identity, now))
            && Well(Perform(l, rt, step, now).after)
            && Perform(l, rt, step, now) ==
               if !Claimable(owner, PendingOn(rt, step.sid), step.identity) then Result(looked, Forbidden)
               else Result(Withdraw(Bind(l, Own(l, looked, step.sid, step.identity, now), k, step.sid, now),
                                    step.identity, step.sid), Done)
  {
    StepWell(l, rt, step, now);
    OwnerWell(l, rt, step.sid, now);
    OwnWell(l, Owner(l, rt, step.sid, now).0, step.sid, step.identity, now);
    hide DictOk, Lookup, Stored;
  }

  // ------------------------------------------------------------------- class

  /** The request that runs for a task and context: whose it is, and its asyncio task. */
  datatype Running = Running(identity: Name, task: nat)

  datatype Snapshot = Snapshot(identity: Name, task: Option<nat>, inflightCreate: Option<nat>)

  /** The runtime as it is kept. Each method is one locked section; `get_or_create_session` is split at its
      awaits into PreferSession, LookUpSession, CreateFails and RecordSession. */
  class SessionRuntime {
    const limits: Limits
    const sessions: TTLCache<Key>
    const owners: TTLCache<Name>
    var pending: map<Name, Name>
    var inflight: map<Key, nat>
    var running: map<(Name, Name), Running>

    ghost function Model(): Runtime
      reads this, sessions, owners
    {
      Runtime(sessions.store, owners.store, pending, inflight)
    }

    ghost predicate Valid()
      reads this, sessions, owners
    {
      && Well(Model())
      && sessions.config == Bindings(limits)
      && owners.config == Ownership(limits)
      && sessions as object != owners as object
    }

    constructor (ttl: int, maxsize: int)
      ensures Valid() && limits == Limits(ttl, maxsize) && Model() == EMPTY && running == map[]
      ensures fresh(sessions) && fresh(owners)
    {
      limits := Limits(ttl, maxsize);
      sessions := new TTLCache<Key>(ttl, maxsize, false);
      owners := new TTLCache<Name>(ttl, maxsize, true);
      pending := map[];
      inflight := map[];
      running := map[];
    }

    method PreferSession(identity: Name, context: Name, sid: Name, now: real) returns (r: Outcome)
      requires Valid()
      modifies this`pending, sessions, owners
      ensures Valid()
      ensures Result(Model(), r) == Perform(limits, old(Model()), Prefer(identity, context, sid), now)
    {
      StepWell(limits, Model(), Prefer(identity, context, sid), now);
      OwnerWell(limits, Model(), sid, now);
      hide DictOk, Lookup, Stored;
      var owner := owners.Get(sid, now);
      if !Claimable(owner, if sid in pending then Some(pending[sid]) else None, identity) {
        return Forbidden;
      }
      if owner == Some(identity) {
        sessions.Set((identity, context), sid, now);
        return Taken(false);
      }
      pending := pending[sid := identity];
      return Taken(true);
    }

    method LookUpSession(identity: Name, context: Name, task: nat, now: real) returns (r: Outcome)
      requires Valid()
      modifies this`inflight, sessions
      ensures Valid()
      ensures Result(Model(), r) == Perform(limits, old(Model()), Look(identity, context, task), now)
    {
      StepWell(limits, Model(), Look(identity, context, task), now);
      hide DictOk, Lookup, Stored;
      var existing := sessions.Get((identity, context), now);
      if existing.Some? && existing.value != "" {
        return Existing(existing.value);
      }
      if (identity, context) !in inflight {
        inflight := inflight[(identity, context) := task];
      }
      return Awaits(inflight[(identity, context)]);
    }

    method CreateFails(identity: Name, context: Name, task: nat)
      requires Valid()
      modifies this`inflight
      ensures Valid()
      ensures Model() == Perform(limits, old(Model()), CreateFailed(identity, context, task), 0.0).after
    {
      if (identity, context) in inflight && inflight[(identity, context)] == task {
        inflight := inflight - {(identity, context)};
      }
    }

    method RecordSession(identity: Name, context: Name, task: nat, sid: Name, now: real) returns (r: Outcome)
      requires Valid()
      modifies this`inflight, sessions, owners
      ensures Valid()
      ensures Result(Model(), r) == Perform(limits, old(Model()), Record(identity, context, task, sid), now)
    {
      ghost var before := Model();
      StepWell(limits, before, Record(identity, context, task, sid), now);
      OwnerWell(limits, before, sid, now);
      BindWell(limits, Owner(limits, before, sid, now).0, (identity, context), sid, now);
      hide DictOk, Lookup, Stored;
      var owner := owners.Get(sid, now);
      if !Claimable(owner, None, identity) {
        return Forbidden;
      }
      sessions.Set((identity, context), sid, now);
      if !(owner.Some? && owner.value != "") {
        owners.Set(sid, identity, now);
      }
      if (identity, context) in inflight && inflight[(identity, context)] == task {
        inflight := inflight - {(identity, context)};
      }
      return Done;
    }

    method FinalizePreferredSession(identity: Name, context: Name, sid: Name, now: real) returns (r: Outcome)
      requires Valid()
      modifies this`pending, sessions, owners
      ensures Valid()
      ensures Result(Model(), r) == Perform(limits, old(Model()), FinalizePreferred(identity, context, sid), now)
    {
      ghost var before := Model();
      ghost var looked := Owner(limits, before, sid, now).0;
      FinalizeUnfolds(limits, before, FinalizePreferred(identity, context, sid), now);
      hide DictOk, Lookup, Stored, Perform;
      var owner := owners.Get(sid, now);
      assert Model() == looked;
      if !Claimable(owner, if sid in pending then Some(pending[sid]) else None, identity) {
        return Forbidden;
      }
      owners.Set(sid, identity, now);
      assert Model() == Own(limits, looked, sid, identity, now);
      sessions.Set((identity, context), sid, now);
      if sid in pending && pending[sid] == identity {
        pending := pending - {sid};
      }
      return Done;
    }

    method ReleaseClaim(identity: Name, sid: Name)
      requires Valid()
      modifies this`pending
      ensures Valid()
      ensures Model() == Perform(limits, old(Model()), Release(identity, sid), 0.0).after
    {
      if sid in pending && pending[sid] == identity {
        pending := pending - {sid};
      }
    }

    method ClaimSession(identity: Name, sid: Name, now: real) returns (r: Outcome)
      requires Valid()
      modifies this`pending, owners
      ensures Valid()
      ensures Result(Model(), r) == Perform(limits, old(Model()), Claim(identity, sid), now)
    {
      StepWell(limits, Model(), Claim(identity, sid), now);
      hide DictOk, Lookup, Stored;
      var owner := owners.Get(sid, now);
      if !Claimable(owner, if sid in pending then Some(pending[sid]) else None, identity) {
        return Forbidden;
      }
      if owner == Some(identity) {
        return Taken(false);
      }
      pending := pending[sid := identity];
      return Taken(true);
    }

    method FinalizeSessionClaim(identity: Name, sid: Name, now: real) returns (r: Outcome)
      requires Valid()
      modifies this`pending, owners
      ensures Valid()
      ensures Result(Model(), r) == Perform(limits, old(Model()), FinalizeClaim(identity, sid), now)
    {
      ghost var before := Model();
      StepWell(limits, before, FinalizeClaim(identity, sid), now);
      OwnerWell(limits, before, sid, now);
      hide DictOk, Lookup, Stored;
      var owner := owners.Get(sid, now);
      if !Claimable(owner, if sid in pending then Some(pending[sid]) else None, identity) {
        return Forbidden;
      }
      owners.Set(sid, identity, now);
      if sid in pending && pending[sid] == identity {
        pending := pending - {sid};
      }
      return Done;
    }

    method SessionOwnerMatches(identity: Name, sid: Name, now: real) returns (matches: Option<bool>)
      requires Valid()
      modifies owners
      ensures Valid()
      ensures Result(Model(), Verdict(matches)) == Perform(limits, old(Model()), OwnerMatches(identity, sid), now)
    {
      StepWell(limits, Model(), OwnerMatches(identity, sid), now);
      hide DictOk, Lookup, Stored;
      var owner := owners.Get(sid, now);
      if owner.Some? && owner.value != "" {
        return Some(owner.value == identity);
      }
      if sid in pending {
        return Some(pending[sid] == identity);
      }
      return None;
    }

    method TrackRunningRequest(task: Name, context: Name, identity: Name, handle: nat)
      requires Valid()
      modifies this`running
      ensures Valid() && Model() == old(Model())
      ensures running == old(running)[(task, context) := Running(identity, handle)]
    {
      running := running[(task, context) := Running(identity, handle)];
    }

    method UntrackRunningRequest(task: Name, context: Name)
      requires Valid()
      modifies this`running
      ensures Valid() && Model() == old(Model())
      ensures running == old(running) - {(task, context)}
    {
      running := running - {(task, context)};
    }

    /** Cancels in the name of whoever runs the request, and of the caller if nobody does. */
    method CancelRunningRequest(task: Name, context: Name, identity: Name) returns (r: Snapshot)
      requires Valid()
      modifies this`inflight, sessions
      ensures Valid() && running == old(running)
      ensures var key := (task, context);
              && r.identity == (if key in running then running[key].identity else identity)
              && r.task == (if key in running then Some(running[key].task) else None)
              && Model() == Perform(limits, old(Model()), CancelRunning(r.identity, context), 0.0).after
      ensures r.inflightCreate == (if (r.identity, context) in old(inflight)
                                   then Some(old(inflight)[(r.identity, context)]) else None)
    {
      var key := (task, context);
      var who: Name := if key in running then running[key].identity else identity;
      CancelUnfolds(limits, Model(), who, context);
      hide DictOk, Drop, Perform;
      sessions.Pop((who, context));
      r := Snapshot(who,
                    if key in running then Some(running[key].task) else None,
                    if (who, context) in inflight then Some(inflight[(who, context)]) else None);
      inflight := inflight - {(who, context)};
    }
  }
}
