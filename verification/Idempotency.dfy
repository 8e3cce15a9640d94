/**
 * Idempotency keys: many clients reserve, complete and release keys in one shared store.  Each
 * store command is one step of the machine, records may expire between any two steps, and every
 * command may fail with or without having taken effect.
 */
module Idempotency {
  import opened Collections

  type Client = nat
  type Key = string
  type Fingerprint = string

  datatype Response = Response(status: int, body: string)

  datatype Record = Pending(fp: Fingerprint) | Completed(fp: Fingerprint, response: Response)

  datatype Reason = BodyMismatch | InFlight | Backend

  /** Where a client stands: about to reserve, about to read, owning the key, or with a result. */
  datatype Phase =
    | Idle
    | Trying(key: Key, fp: Fingerprint, attempt: nat)
    | Reading(key: Key, fp: Fingerprint, attempt: nat)
    | Owning(key: Key, fp: Fingerprint)
    | Answered(key: Key, fp: Fingerprint, response: Response)
    | Refused(reason: Reason)
    | Finished

  datatype Write = Write(key: Key, fp: Fingerprint, response: Response)

  /** The store, the clients, and the history of responses written by Complete. */
  datatype System = System(records: map<Key, Record>, phases: map<Client, Phase>, written: seq<Write>)

  const ATTEMPTS: nat := 2

  datatype Step =
    | Start(client: Client, key: Key, fp: Fingerprint)
    | TrySet(client: Client)
    | TrySetFails(client: Client, applied: bool)
    | Read(client: Client)
    | ReadFails(client: Client)
    | Complete(client: Client, response: Response)
    | CompleteFails(client: Client, response: Response, applied: bool)
    | Release(client: Client, deleted: bool)
    | Expire(key: Key)

  function PhaseOf(s: System, c: Client): Phase {
    if c in s.phases then s.phases[c] else Idle
  }

  function Move(s: System, c: Client, phase: Phase): System {
    s.(phases := s.phases[c := phase])
  }

  /** The result of reading a record, or its absence, after a lost reservation. */
  function Judge(found: Option<Record>, key: Key, fp: Fingerprint, attempt: nat): Phase {
    match found
    case None => if attempt + 1 < ATTEMPTS then Trying(key, fp, attempt + 1) else Refused(InFlight)
    case Some(record) =>
      if record.fp != fp then Refused(BodyMismatch)
      else if record.Completed? then Answered(key, fp, record.response)
      else Refused(InFlight)
  }

  function Lookup(records: map<Key, Record>, key: Key): Option<Record> {
    if key in records then Some(records[key]) else None
  }

  /** One step; a step its client is not ready for changes nothing. */
  function Next(s: System, step: Step): System {
    match step
    case Expire(key) => s.(records := s.records - {key})
    case Start(c, key, fp) => if PhaseOf(s, c).Idle? then Move(s, c, Trying(key, fp, 0)) else s
    case TrySet(c) =>
      var ph := PhaseOf(s, c);
      if !ph.Trying? then s
      else if ph.key in s.records then Move(s, c, Reading(ph.key, ph.fp, ph.attempt))
      else Move(s.(records := s.records[ph.key := Pending(ph.fp)]), c, Owning(ph.key, ph.fp))
    case TrySetFails(c, applied) =>
      var ph := PhaseOf(s, c);
      if !ph.Trying? then s
      else
        Move(if applied && ph.key !in s.records then s.(records := s.records[ph.key := Pending(ph.fp)]) else s, c, Refused(Backend))
    case Read(c) =>
      var ph := PhaseOf(s, c);
      if !ph.Reading? then s else Move(s, c, Judge(Lookup(s.records, ph.key), ph.key, ph.fp, ph.attempt))
    case ReadFails(c) => if PhaseOf(s, c).Reading? then Move(s, c, Refused(Backend)) else s
    case Complete(c, response) =>
      var ph := PhaseOf(s, c);
      if !ph.Owning? then s else Move(Stored(s, ph.key, ph.fp, response), c, Finished)
    case CompleteFails(c, response, applied) =>
      var ph := PhaseOf(s, c);
      if !ph.Owning? then s else Move(if applied then Stored(s, ph.key, ph.fp, response) else s, c, Finished)
    case Release(c, deleted) =>
      var ph := PhaseOf(s, c);
      if !ph.Owning? then s
      else Move(if deleted then s.(records := s.records - {ph.key}) else s, c, Finished)
  }

  function Stored(s: System, key: Key, fp: Fingerprint, response: Response): System {
    s.(records := s.records[key := Completed(fp, response)], written := s.written + [Write(key, fp, response)])
  }

  function Run(s: System, steps: seq<Step>): System {
    if steps == [] then s else Next(Run(s, steps[..|steps| - 1]), steps[|steps| - 1])
  }

  const EMPTY := System(map[], map[], [])

  lemma {:induction false} RunGrows(s: System, steps: seq<Step>, k: nat)
    requires k < |steps|
    ensures Run(s, steps[..k + 1]) == Next(Run(s, steps[..k]), steps[k])
  {
    var longer := steps[..k + 1];
    assert longer[..|longer| - 1] == steps[..k];
  }

  // ---------------------------------------------------------------- replayed responses are real

  ghost predicate Faithful(s: System) {
    && (forall key :: key in s.records && s.records[key].Completed? ==> Write(key, s.records[key].fp, s.records[key].response) in s.written)
    && (forall c :: PhaseOf(s, c).Answered? ==> Write(PhaseOf(s, c).key, PhaseOf(s, c).fp, PhaseOf(s, c).response) in s.written)
  }

  lemma {:induction false} StepFaithful(s: System, step: Step)
    requires Faithful(s)
    ensures Faithful(Next(s, step)) && s.written <= Next(s, step).written
  {
    var t := Next(s, step);
    assert forall w :: w in s.written ==> w in t.written;
    forall c | PhaseOf(t, c).Answered? ensures Write(PhaseOf(t, c).key, PhaseOf(t, c).fp, PhaseOf(t, c).response) in t.written {
      assert PhaseOf(s, c).Answered? || step == Read(c);
    }
  }

  /** In every interleaving, even with expiry and failures, a replayed response is one a Complete stored for that key and fingerprint. */
  lemma {:induction false} ReplaysAreReal(steps: seq<Step>, c: Client)
    ensures Faithful(Run(EMPTY, steps))
    ensures var ph := PhaseOf(Run(EMPTY, steps), c);
      ph.Answered? ==> Write(ph.key, ph.fp, ph.response) in Run(EMPTY, steps).written
    decreases |steps|
  {
    hide Next;
    if steps != [] {
      ReplaysAreReal(steps[..|steps| - 1], c);
      StepFaithful(Run(EMPTY, steps[..|steps| - 1]), steps[|steps| - 1]);
    }
  }

  /** Every written response was written by a Complete of the client that owned the key with that fingerprint. */
  lemma {:induction false} WritesAreOwned(steps: seq<Step>, w: Write)
    requires w in Run(EMPTY, steps).written
    ensures exists k: nat :: k < |steps| && Completes(Run(EMPTY, steps[..k]), steps[k], w)
    decreases |steps|
  {
    hide Next;
    if steps != [] {
      var n := |steps| - 1;
      var s := Run(EMPTY, steps[..n]);
      StepWrites(s, steps[n], w);
      if w in s.written {
        WritesAreOwned(steps[..n], w);
        var k: nat :| k < n && Completes(Run(EMPTY, steps[..n][..k]), steps[..n][k], w);
        assert steps[..n][..k] == steps[..k];
        assert Completes(Run(EMPTY, steps[..k]), steps[k], w);
      } else {
        assert Completes(Run(EMPTY, steps[..n]), steps[n], w);
      }
    }
  }

  ghost predicate Completes(s: System, step: Step, w: Write) {
    && (step.Complete? || (step.CompleteFails? && step.applied)) && step.response == w.response
    && PhaseOf(s, step.client) == Owning(w.key, w.fp)
  }

  lemma {:induction false} StepWrites(s: System, step: Step, w: Write)
    requires w in Next(s, step).written
    ensures w in s.written || Completes(s, step, w)
  {}

  // ---------------------------------------------------------------- one owner per key

  ghost predicate Exclusive(s: System) {
    forall c, d :: PhaseOf(s, c).Owning? && PhaseOf(s, d).Owning? && c != d ==> PhaseOf(s, c).key != PhaseOf(s, d).key
  }

  ghost predicate Owned(s: System, key: Key) {
    exists c :: PhaseOf(s, c).Owning? && PhaseOf(s, c).key == key
  }

  /** A reservation that succeeds although another client still owns the key, whose record has vanished. */
  ghost predicate TakesOwned(s: System, step: Step) {
    step.TrySet? && PhaseOf(s, step.client).Trying? && PhaseOf(s, step.client).key !in s.records && Owned(s, PhaseOf(s, step.client).key)
  }

  /** A step leads to two owners of one key exactly when it takes an owned key whose record has vanished. */
  lemma {:induction false} StepExclusiveIff(s: System, step: Step)
    requires Exclusive(s)
    ensures Exclusive(Next(s, step)) <==> !TakesOwned(s, step)
  {
    var t := Next(s, step);
    if TakesOwned(s, step) {
      var key := PhaseOf(s, step.client).key;
      var d :| PhaseOf(s, d).Owning? && PhaseOf(s, d).key == key;
      assert PhaseOf(t, d) == PhaseOf(s, d) && PhaseOf(t, step.client).Owning? && PhaseOf(t, step.client).key == key;
    } else {
      forall c, d | PhaseOf(t, c).Owning? && PhaseOf(t, d).Owning? && c != d ensures PhaseOf(t, c).key != PhaseOf(t, d).key {
        OwnerCases(s, step, c);
        OwnerCases(s, step, d);
      }
    }
  }

  /** An owner after a step was one before, or has just reserved a free key. */
  lemma {:induction false} OwnerCases(s: System, step: Step, c: Client)
    requires PhaseOf(Next(s, step), c).Owning?
    ensures PhaseOf(s, c) == PhaseOf(Next(s, step), c) ||
      (step == TrySet(c) && PhaseOf(s, c).Trying? && PhaseOf(s, c).key == PhaseOf(Next(s, step), c).key && PhaseOf(s, c).key !in s.records)
  {}

  /** At most one client owns the key, and while one does its pending record is in the store. */
  ghost predicate HeldOnce(s: System, key: Key) {
    && (forall c, d :: Owns(s, c, key) && Owns(s, d, key) ==> c == d)
    && (forall c :: Owns(s, c, key) ==> Lookup(s.records, key) == Some(Pending(PhaseOf(s, c).fp)))
  }

  ghost predicate Owns(s: System, c: Client, key: Key) {
    PhaseOf(s, c).Owning? && PhaseOf(s, c).key == key
  }

  lemma {:induction false} StepHeld(s: System, step: Step, key: Key)
    requires HeldOnce(s, key) && (step == Expire(key) ==> !Owned(s, key))
    ensures HeldOnce(Next(s, step), key)
  {
    var t := Next(s, step);
    forall c | Owns(t, c, key) ensures Owns(s, c, key) || (step == TrySet(c) && key !in s.records) {
      OwnerCases(s, step, c);
    }
    forall c | Owns(t, c, key) ensures Lookup(t.records, key) == Some(Pending(PhaseOf(t, c).fp)) {
      OwnerCases(s, step, c);
      if Owns(s, c, key) {
        assert Lookup(s.records, key) == Some(Pending(PhaseOf(s, c).fp));
        assert !step.Expire? && Owns(s, step.client, key) ==> step.client == c;
      }
    }
  }

  ghost predicate ExpiresOwned(steps: seq<Step>, key: Key, k: nat)
    requires k < |steps|
  {
    steps[k] == Expire(key) && Owned(Run(EMPTY, steps[..k]), key)
  }

  /** As long as a key's own record does not expire under its owner, no two clients ever own that key. */
  lemma {:induction false} OneOwner(steps: seq<Step>, key: Key, k: nat)
    requires k <= |steps| && forall j: nat :: j < |steps| ==> !ExpiresOwned(steps, key, j)
    ensures HeldOnce(Run(EMPTY, steps[..k]), key)
    decreases k
  {
    hide Next, HeldOnce;
    if k == 0 {
      NobodyOwns(key);
      assert steps[..0] == [];
    } else {
      OneOwner(steps, key, k - 1);
      RunGrows(EMPTY, steps, k - 1);
      assert !ExpiresOwned(steps, key, k - 1);
      StepHeld(Run(EMPTY, steps[..k - 1]), steps[k - 1], key);
    }
  }

  lemma NobodyOwns(key: Key)
    ensures HeldOnce(EMPTY, key) && Once(EMPTY, key)
  {}

  const EXPIRY_RUN := [Start(1, "k", "a"), TrySet(1), Expire("k"), Start(2, "k", "a"), TrySet(2)]

  /** When a record expires under its owner, a second client can take the key. */
  lemma {:induction false} ExpiryExample()
    ensures PhaseOf(Run(EMPTY, EXPIRY_RUN), 1) == Owning("k", "a") && PhaseOf(Run(EMPTY, EXPIRY_RUN), 2) == Owning("k", "a")
    ensures !Exclusive(Run(EMPTY, EXPIRY_RUN))
  {
    assert EXPIRY_RUN[..5] == EXPIRY_RUN && EXPIRY_RUN[..0] == [];
    RunGrows(EMPTY, EXPIRY_RUN, 0);
    RunGrows(EMPTY, EXPIRY_RUN, 1);
    RunGrows(EMPTY, EXPIRY_RUN, 2);
    RunGrows(EMPTY, EXPIRY_RUN, 3);
    RunGrows(EMPTY, EXPIRY_RUN, 4);
    var s2 := System(map["k" := Pending("a")], map[1 := Owning("k", "a")], []);
    assert Run(EMPTY, EXPIRY_RUN[..2]) == s2;
    var s3 := System(map[], map[1 := Owning("k", "a")], []);
    assert Run(EMPTY, EXPIRY_RUN[..3]) == s3;
    assert Run(EMPTY, EXPIRY_RUN[..4]) == Move(s3, 2, Trying("k", "a", 0));
  }

  // ---------------------------------------------------------------- one response per key

  /** The key has no two responses, and the one it has is still stored. */
  ghost predicate Once(s: System, key: Key) {
    && (forall i, j :: 0 <= i < j < |s.written| ==> s.written[i].key != key || s.written[j].key != key)
    && (forall w :: w in s.written && w.key == key ==> Lookup(s.records, key) == Some(Completed(w.fp, w.response)))
  }

  lemma {:induction false} StepOnce(s: System, step: Step, key: Key)
    requires Once(s, key) && HeldOnce(s, key) && step != Expire(key)
    ensures Once(Next(s, step), key)
  {
    var t := Next(s, step);
    if t.written != s.written {
      var at := PhaseOf(s, step.client).key;
      assert Owns(s, step.client, at);
      forall i | 0 <= i < |s.written| && at == key ensures s.written[i].key != key {
        assert s.written[i] in s.written;
      }
      assert t.written == s.written + [t.written[|s.written|]];
    }
    forall w | w in t.written && w.key == key ensures Lookup(t.records, key) == Some(Completed(w.fp, w.response)) {
      StepWrites(s, step, w);
      if w in s.written {
        assert Lookup(s.records, key) == Some(Completed(w.fp, w.response));
        assert forall c :: !Owns(s, c, key);
      }
    }
  }

  /** While a key's record does not expire, at most one response is ever stored for it, whatever fails, is released or expires elsewhere. */
  lemma {:induction false} StoredOnce(steps: seq<Step>, key: Key)
    requires forall k :: 0 <= k < |steps| ==> steps[k] != Expire(key)
    ensures Once(Run(EMPTY, steps), key)
    decreases |steps|
  {
    hide Next, HeldOnce, Once;
    if steps == [] {
      NobodyOwns(key);
    } else {
      var n := |steps| - 1;
      StoredOnce(steps[..n], key);
      OneOwner(steps, key, n);
      StepOnce(Run(EMPTY, steps[..n]), steps[n], key);
    }
  }

  /** So all clients that get an answer for the key get the same one, for the same request. */
  lemma {:induction false} AnswersAgree(steps: seq<Step>, c: Client, d: Client)
    requires PhaseOf(Run(EMPTY, steps), c).Answered? && PhaseOf(Run(EMPTY, steps), d).Answered?
    requires PhaseOf(Run(EMPTY, steps), c).key == PhaseOf(Run(EMPTY, steps), d).key
    requires forall k :: 0 <= k < |steps| ==> steps[k] != Expire(PhaseOf(Run(EMPTY, steps), c).key)
    ensures PhaseOf(Run(EMPTY, steps), c) == PhaseOf(Run(EMPTY, steps), d)
  {
    hide Run;
    StoredOnce(steps, PhaseOf(Run(EMPTY, steps), c).key);
    ReplaysAreReal(steps, c);
    ReplaysAreReal(steps, d);
  }

  // ---------------------------------------------------------------- completing and releasing

  /** Nobody holds a key whose record is absent, and the next client to try for it owns it. */
  ghost predicate Free(s: System, key: Key) {
    && key !in s.records && !Owned(s, key)
    && (forall c :: PhaseOf(s, c).Trying? && PhaseOf(s, c).key == key ==> PhaseOf(Next(s, TrySet(c)), c) == Owning(key, PhaseOf(s, c).fp))
  }

  lemma NoOwner(s: System, key: Key)
    ensures Owned(s, key) <==> exists c :: Owns(s, c, key)
  {
    if c :| PhaseOf(s, c).Owning? && PhaseOf(s, c).key == key {
      assert Owns(s, c, key);
    }
  }

  lemma {:induction false} ReleaseStep(s: System, c: Client, key: Key)
    requires HeldOnce(s, key) && Owns(s, c, key)
    ensures Free(Next(s, Release(c, true)), key)
    ensures var t := Next(s, Release(c, false)); !Owned(t, key) && Lookup(t.records, key) == Some(Pending(PhaseOf(s, c).fp))
  {
    var t, u := Next(s, Release(c, true)), Next(s, Release(c, false));
    assert PhaseOf(t, c) == Finished && PhaseOf(u, c) == Finished;
    forall d ensures !Owns(t, d, key) && !Owns(u, d, key) {
      if d != c {
        assert !Owns(s, d, key);
        assert PhaseOf(t, d) == PhaseOf(s, d) == PhaseOf(u, d);
      }
    }
    assert !Owned(t, key) && !Owned(u, key) by { NoOwner(t, key); NoOwner(u, key); }
  }

  /**
   * In every run where the key's record does not expire under its owner, an owner that releases it
   * frees it for the next client; if the deletion fails, the pending record stays without an owner.
   */
  lemma {:induction false} ReleaseFrees(steps: seq<Step>, c: Client, key: Key)
    requires Owns(Run(EMPTY, steps), c, key) && forall j: nat :: j < |steps| ==> !ExpiresOwned(steps, key, j)
    ensures Free(Run(EMPTY, steps + [Release(c, true)]), key)
    ensures var t := Run(EMPTY, steps + [Release(c, false)]);
      !Owned(t, key) && Lookup(t.records, key) == Some(Pending(PhaseOf(Run(EMPTY, steps), c).fp))
  {
    hide Next, Free, HeldOnce, Owned, Owns, Run;
    OneOwner(steps, key, |steps|);
    assert steps[..|steps|] == steps;
    ReleaseStep(Run(EMPTY, steps), c, key);
    RunAppend(EMPTY, steps, Release(c, true));
    RunAppend(EMPTY, steps, Release(c, false));
  }

  /** The client is turned away from the key and then reads its record. */
  function TriesAndReads(s: System, c: Client): System {
    Next(Next(s, TrySet(c)), Read(c))
  }

  /**
   * In every run where the key's record does not expire, whoever tries for a key after its response
   * was written gets exactly that response if its request has the same fingerprint, and a refusal if not.
   */
  lemma {:induction false} ReplaysOrRefuses(steps: seq<Step>, w: Write, c: Client)
    requires forall k :: 0 <= k < |steps| ==> steps[k] != Expire(w.key)
    requires w in Run(EMPTY, steps).written
    requires PhaseOf(Run(EMPTY, steps), c).Trying? && PhaseOf(Run(EMPTY, steps), c).key == w.key
    ensures var fp := PhaseOf(Run(EMPTY, steps), c).fp;
      PhaseOf(TriesAndReads(Run(EMPTY, steps), c), c) == if fp == w.fp then Answered(w.key, fp, w.response) else Refused(BodyMismatch)
  {
    hide Run;
    StoredOnce(steps, w.key);
  }

  /** Completing stores the response for the key, whoever owned it before and whatever else is stored. */
  lemma {:induction false} CompletedIsReplayed(steps: seq<Step>, c: Client, key: Key, response: Response)
    requires Owns(Run(EMPTY, steps), c, key)
    ensures var s, t := Run(EMPTY, steps), Run(EMPTY, steps + [Complete(c, response)]);
      && Lookup(t.records, key) == Some(Completed(PhaseOf(s, c).fp, response))
      && t.written == s.written + [Write(key, PhaseOf(s, c).fp, response)]
      && (forall other :: other != key ==> Lookup(t.records, other) == Lookup(s.records, other))
  {
    hide Run;
    RunAppend(EMPTY, steps, Complete(c, response));
  }

  // ---------------------------------------------------------------- keys in the shared store

  function StoreKey(service: string, route: string, key: string): Key {
    "idem:" + service + ":" + route + ":" + key
  }

  /** Keys of one service are kept apart when routes have no colon. */
  lemma {:induction false} KeysApart(service: string, route: string, key: string, other: string, key': string)
    requires ':' !in route && ':' !in other
    ensures StoreKey(service, route, key) == StoreKey(service, other, key') <==> route == other && key == key'
  {
    var prefix := "idem:" + service + ":";
    if StoreKey(service, route, key) == StoreKey(service, other, key') {
      var a, b := StoreKey(service, route, key), StoreKey(service, other, key');
      assert a == prefix + (route + ":" + key) && b == prefix + (other + ":" + key');
      assert a[|prefix|..] == route + ":" + key && b[|prefix|..] == other + ":" + key';
      SplitAtColon(route, key, other, key');
    }
  }

  lemma {:induction false} SplitAtColon(a: string, x: string, b: string, y: string)
    requires ':' !in a && ':' !in b && a + ":" + x == b + ":" + y
    ensures a == b && x == y
  {
    NoEarlierColon(a, x, b, y);
    NoEarlierColon(b, y, a, x);
    var s := a + ":" + x;
    assert s[..|a|] == a && s[..|b|] == b && s[|a| + 1..] == x && s[|b| + 1..] == y;
  }

  lemma {:induction false} NoEarlierColon(a: string, x: string, b: string, y: string)
    requires ':' !in b && a + ":" + x == b + ":" + y
    ensures |b| <= |a|
  {
    var s := a + ":" + x;
    assert s[|a|] == ':';
    assert forall i :: 0 <= i < |b| ==> s[i] == b[i] && b[i] in b;
  }

  /** With a colon in a route two different keys can share a record. */
  lemma KeysCollide()
    ensures StoreKey("s", "a:b", "c") == StoreKey("s", "a", "b:c")
  {}

  // ---------------------------------------------------------------- the client's own code

  /** What the backend does with a command: carry it out, or report an error with or without carrying it out. */
  datatype Fault = NoFault | Fails(applied: bool)

  predicate ByOthers(steps: seq<Step>, c: Client) {
    forall k :: 0 <= k < |steps| ==> steps[k].Expire? || steps[k].client != c
  }

  lemma {:induction false} RunAppend(s: System, steps: seq<Step>, step: Step)
    ensures Run(s, steps + [step]) == Next(Run(s, steps), step)
  {
    assert (steps + [step])[..|steps|] == steps;
  }

  lemma {:induction false} RunConcat(s: System, x: seq<Step>, y: seq<Step>)
    ensures Run(s, x + y) == Run(Run(s, x), y)
    decreases |y|
  {
    hide Next;
    if y == [] {
      assert x + y == x;
    } else {
      var n := |y| - 1;
      RunConcat(s, x, y[..n]);
      assert x + y == (x + y[..n]) + [y[n]];
      RunAppend(s, x + y[..n], y[n]);
    }
  }

  lemma {:induction false} OthersKeepPhase(s: System, steps: seq<Step>, c: Client)
    requires ByOthers(steps, c)
    ensures PhaseOf(Run(s, steps), c) == PhaseOf(s, c)
    decreases |steps|
  {
    hide Next;
    if steps != [] {
      var n := |steps| - 1;
      OthersKeepPhase(s, steps[..n], c);
      OtherKeepsPhase(Run(s, steps[..n]), steps[n], c);
    }
  }

  lemma OtherKeepsPhase(s: System, step: Step, c: Client)
    requires step.Expire? || step.client != c
    ensures PhaseOf(Next(s, step), c) == PhaseOf(s, c)
  {}

  lemma TrySetStep(s: System, c: Client, applied: bool)
    requires PhaseOf(s, c).Trying?
    ensures var ph := PhaseOf(s, c); var reserved := s.(records := s.records[ph.key := Pending(ph.fp)]);
      && Next(s, TrySet(c)) == (if ph.key in s.records then Move(s, c, Reading(ph.key, ph.fp, ph.attempt)) else Move(reserved, c, Owning(ph.key, ph.fp)))
      && Next(s, TrySetFails(c, applied)) == Move(if applied && ph.key !in s.records then reserved else s, c, Refused(Backend))
  {}

  lemma ReadStep(s: System, c: Client)
    requires PhaseOf(s, c).Reading?
    ensures var ph := PhaseOf(s, c);
      && Next(s, Read(c)) == Move(s, c, Judge(Lookup(s.records, ph.key), ph.key, ph.fp, ph.attempt))
      && Next(s, ReadFails(c)) == Move(s, c, Refused(Backend))
  {}

  lemma StartStep(s: System, c: Client, key: Key, fp: Fingerprint)
    requires PhaseOf(s, c).Idle?
    ensures Run(s, [Start(c, key, fp)]) == Move(s, c, Trying(key, fp, 0))
  {
    assert [Start(c, key, fp)][..0] == [];
  }

  /** The shared store with where each of its clients stands. */
  class Store {
    var system: System

    constructor ()
      ensures system == EMPTY
    {
      system := EMPTY;
    }

    /** Set only if absent; None is a backend error. */
    method SetNX(key: Key, record: Record, fault: Fault) returns (reserved: Option<bool>)
      modifies this
      ensures reserved == if fault.NoFault? then Some(key !in old(system).records) else None
      ensures system == if key !in old(system).records && (fault.NoFault? || fault.applied)
                        then old(system).(records := old(system).records[key := record]) else old(system)
    {
      var absent := key !in system.records;
      if absent && (fault.NoFault? || fault.applied) {
        system := system.(records := system.records[key := record]);
      }
      reserved := if fault.NoFault? then Some(absent) else None;
    }

    /** Read a record that may be absent; the outer None is a backend error. */
    method Get(key: Key, fault: Fault) returns (found: Option<Option<Record>>)
      ensures found == if fault.NoFault? then Some(Lookup(system.records, key)) else None
    {
      if fault.Fails? {
        return None;
      }
      found := Some(if key in system.records then Some(system.records[key]) else None);
    }

    /** Other clients and expiries go their way. */
    method Meanwhile(steps: seq<Step>)
      modifies this
      ensures system == Run(old(system), steps)
    {
      hide Next;
      var k := 0;
      while k < |steps|
        invariant 0 <= k <= |steps| && system == Run(old(system), steps[..k])
      {
        RunGrows(old(system), steps, k);
        system := Next(system, steps[k]);
        k := k + 1;
      }
      assert steps[..k] == steps;
    }

    /**
     * Reserve, or surface a prior result or a conflict.  Before each command anything may happen
     * that does not involve this client, and each command may fail.  What happens is one run of the
     * machine, in which this client ends with the result.
     */
    method Begin(c: Client, key: Key, fp: Fingerprint, others: seq<seq<Step>>, faults: seq<Fault>)
      returns (result: Phase, ghost steps: seq<Step>)
      requires PhaseOf(system, c).Idle? && |others| == |faults| == 2 * ATTEMPTS
      requires forall k :: 0 <= k < |others| ==> ByOthers(others[k], c)
      modifies this
      ensures system == Run(old(system), steps) && PhaseOf(system, c) == result
      ensures result.Owning? || result.Answered? || result.Refused?
      ensures result.Owning? ==> result == Owning(key, fp) && Lookup(system.records, key) == Some(Pending(fp))
      ensures result.Answered? ==> result.key == key && result.fp == fp && Lookup(system.records, key) == Some(Completed(fp, result.response))
      ensures result == Refused(BodyMismatch) ==> key in system.records && system.records[key].fp != fp
      ensures result == Refused(InFlight) ==> key !in system.records || system.records[key] == Pending(fp)
      ensures (forall k :: 0 <= k < |faults| ==> faults[k].NoFault?) ==> result != Refused(Backend)
    {
      hide Next, Run;
      steps := [Start(c, key, fp)];
      StartStep(system, c, key, fp);
      system := Move(system, c, Trying(key, fp, 0));
      var attempt := 0;
      while attempt < ATTEMPTS
        invariant 0 <= attempt <= ATTEMPTS && system == Run(old(system), steps)
        invariant attempt < ATTEMPTS ==> PhaseOf(system, c) == Trying(key, fp, attempt)
        invariant attempt == ATTEMPTS ==> PhaseOf(system, c) == Refused(InFlight) && key !in system.records
      {
        steps := Wait(c, others[2 * attempt], old(system), steps);
        TrySetStep(system, c, faults[2 * attempt].Fails? && faults[2 * attempt].applied);
        var reserved := SetNX(key, Pending(fp), faults[2 * attempt]);
        if reserved.None? {
          RunAppend(old(system), steps, TrySetFails(c, faults[2 * attempt].applied));
          steps := steps + [TrySetFails(c, faults[2 * attempt].applied)];
          result := Refused(Backend);
          system := Move(system, c, result);
          return;
        }
        RunAppend(old(system), steps, TrySet(c));
        steps := steps + [TrySet(c)];
        if reserved.value {
          result := Owning(key, fp);
          system := Move(system, c, result);
          return;
        }
        system := Move(system, c, Reading(key, fp, attempt));
        steps := Wait(c, others[2 * attempt + 1], old(system), steps);
        ReadStep(system, c);
        var found := Get(key, faults[2 * attempt + 1]);
        if found.None? {
          RunAppend(old(system), steps, ReadFails(c));
          steps := steps + [ReadFails(c)];
          result := Refused(Backend);
          system := Move(system, c, result);
          return;
        }
        RunAppend(old(system), steps, Read(c));
        steps := steps + [Read(c)];
        if found.value.Some? {
          var record := found.value.value;
          if record.fp != fp {
            result := Refused(BodyMismatch);
          } else if record.Completed? {
            result := Answered(key, fp, record.response);
          } else {
            result := Refused(InFlight);
          }
          system := Move(system, c, result);
          return;
        }
        attempt := attempt + 1;
        system := Move(system, c, if attempt < ATTEMPTS then Trying(key, fp, attempt) else Refused(InFlight));
      }
      result := Refused(InFlight);
    }

    /** Let the others go first; the run so far grows by their steps and this client stays where it is. */
    method Wait(c: Client, others: seq<Step>, ghost start: System, ghost steps: seq<Step>) returns (ghost longer: seq<Step>)
      requires system == Run(start, steps) && ByOthers(others, c)
      modifies this
      ensures system == Run(start, longer) && longer == steps + others && PhaseOf(system, c) == old(PhaseOf(system, c))
    {
      hide Next;
      RunConcat(start, steps, others);
      OthersKeepPhase(system, others, c);
      Meanwhile(others);
      longer := steps + others;
    }
  }
}
