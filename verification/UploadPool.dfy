/**
 uploadParts in the web client: at most four workers share one queue of parts, PUT each part up to
 three times, and fill a shared results array.  A state is what the closures share between awaits;
 an event is one resumption of one worker, so a schedule is any interleaving JavaScript may choose.
 */
module UploadPool {
  import opened Wrappers
  import opened Counting
  import opened UploadSizing
  import opened DriveSpec

  const MAX_RETRIES := 2
  const PART_CONCURRENCY := 4

  datatype Worker =
    | Idle                                  // about to test queue.length
    | Putting(part: nat, attempt: nat)      // awaiting fetch
    | Sleeping(part: nat, attempt: nat)     // awaiting the back-off timer before this attempt
    | Finished
    | Crashed(part: nat)                    // putOne threw

  datatype Pool = Pool(
    count: nat, queue: seq<nat>, workers: seq<Worker>, results: seq<Option<PartTag>>,
    completed: nat, progress: seq<nat>, puts: seq<nat>, stored: map<nat, Blob>)

  datatype Event =
    | Resume(worker: nat)                               // the loop test, with queue.shift() if there is work
    | Respond(worker: nat, ok: bool, acted: bool)       // fetch settles; a failed PUT may still have been stored
    | Wake(worker: nat)                                 // the back-off timer fires

  /** Math.round(completed / count * 100), on exact fractions. */
  function Percent(completed: nat, count: nat): nat
    requires count > 0
  {
    (200 * completed + count) / (2 * count)
  }

  function Initial(count: nat): Pool {
    Pool(count, seq(count, i => i + 1), seq(Min(PART_CONCURRENCY, count), _ => Idle), seq(count, _ => None),
         0, [], seq(count, _ => 0), map[])
  }

  /** Events that cannot happen in `p` leave it alone. */
  predicate CanHappen(p: Pool, e: Event) {
    && e.worker < |p.workers|
    && match e
       case Resume(w) => p.workers[w].Idle?
       case Respond(w, _, _) => p.workers[w].Putting?
       case Wake(w) => p.workers[w].Sleeping?
  }

  /** The worker's part is one of the file's, so that it can be sliced and counted. */
  predicate InRange(p: Pool, part: nat) {
    1 <= part <= p.count == |p.results| == |p.puts|
  }

  function CountPut(p: Pool, part: nat): seq<nat>
    requires InRange(p, part)
  {
    p.puts[part - 1 := p.puts[part - 1] + 1]
  }

  /** `blobs[n - 1]` is the slice of the file that putOne cuts for part n. */
  function Step(blobs: seq<Blob>, p: Pool, e: Event): Pool
    requires |blobs| == p.count
    ensures Step(blobs, p, e).count == p.count
  {
    if !CanHappen(p, e) then p
    else match e
      case Resume(w) =>
        if p.queue == [] then p.(workers := p.workers[w := Finished])
        else if !InRange(p, p.queue[0]) then p
        else p.(queue := p.queue[1..], workers := p.workers[w := Putting(p.queue[0], 0)],
                puts := CountPut(p, p.queue[0]))
      case Wake(w) =>
        var part, attempt := p.workers[w].part, p.workers[w].attempt;
        if !InRange(p, part) then p
        else p.(workers := p.workers[w := Putting(part, attempt)], puts := CountPut(p, part))
      case Respond(w, ok, acted) =>
        var part, attempt := p.workers[w].part, p.workers[w].attempt;
        if !InRange(p, part) then p
        else
          var blob := blobs[part - 1];
          if ok then
            p.(workers := p.workers[w := Idle],
               results := p.results[part - 1 := Some(PartTag(part, blob))],
               completed := p.completed + 1,
               progress := p.progress + [Percent(p.completed + 1, p.count)],
               stored := p.stored[part := blob])
          else
            p.(workers := p.workers[w := if attempt < MAX_RETRIES then Sleeping(part, attempt + 1) else Crashed(part)],
               stored := if acted then p.stored[part := blob] else p.stored)
  }

  function Run(blobs: seq<Blob>, p: Pool, schedule: seq<Event>): (q: Pool)
    requires |blobs| == p.count
    ensures q.count == p.count
    decreases |schedule|
  {
    if schedule == [] then p
    else Step(blobs, Run(blobs, p, schedule[..|schedule| - 1]), schedule[|schedule| - 1])
  }

  // ----- the invariant

  /** The part a worker is responsible for, 0 if none. */
  function Holds(w: Worker): nat {
    match w
    case Putting(part, _) => part
    case Sleeping(part, _) => part
    case Crashed(part) => part
    case _ => 0
  }

  /** How many parts have left the queue. */
  function Taken(p: Pool): int { p.count - |p.queue| }

  function OneIfDone(result: Option<PartTag>): nat { if result.Some? then 1 else 0 }

  function Done(results: seq<Option<PartTag>>): nat { Total(results, OneIfDone) }

  predicate IsHeld(p: Pool, part: nat) {
    exists w :: 0 <= w < |p.workers| && Holds(p.workers[w]) == part
  }

  /** The queue is the tail of the part list that nobody has taken. */
  predicate QueueInOrder(p: Pool) {
    && |p.queue| <= p.count == |p.results| == |p.puts| && |p.workers| == Min(PART_CONCURRENCY, p.count)
    && (forall i :: 0 <= i < |p.queue| ==> p.queue[i] == Taken(p) + i + 1)
  }

  /** Workers hold different parts, all taken and none done; a worker finishes only once the queue is empty. */
  ghost predicate HoldersApart(p: Pool)
    requires QueueInOrder(p)
  {
    && (forall w :: 0 <= w < |p.workers| && Holds(p.workers[w]) > 0 ==>
          Holds(p.workers[w]) <= Taken(p) && p.results[Holds(p.workers[w]) - 1].None?)
    && (forall v, w :: 0 <= v < w < |p.workers| && Holds(p.workers[v]) > 0 ==>
          Holds(p.workers[v]) != Holds(p.workers[w]))
    && (forall w :: 0 <= w < |p.workers| && p.workers[w].Finished? ==> p.queue == [])
  }

  /** Every part taken is done or in the hands of exactly one worker, and every other part is neither. */
  ghost predicate OnePlaceEach(p: Pool)
    requires QueueInOrder(p)
  {
    && HoldersApart(p)
    && (forall i :: Taken(p) <= i < p.count ==> p.results[i].None? && p.puts[i] == 0)
    && (forall i :: 0 <= i < Taken(p) && p.results[i].None? ==> IsHeld(p, i + 1))
  }

  predicate AttemptOk(p: Pool, w: Worker) {
    match w
    case Putting(part, a) => InRange(p, part) && a <= MAX_RETRIES && p.puts[part - 1] == a + 1
    case Sleeping(part, a) => InRange(p, part) && 1 <= a <= MAX_RETRIES && p.puts[part - 1] == a
    case Crashed(part) => InRange(p, part) && p.puts[part - 1] == MAX_RETRIES + 1
    case _ => true
  }

  /** No part is PUT more than three times. */
  ghost predicate PutsBounded(p: Pool) {
    && (forall i :: 0 <= i < |p.puts| ==> p.puts[i] <= MAX_RETRIES + 1)
    && (forall w :: 0 <= w < |p.workers| ==> AttemptOk(p, p.workers[w]))
  }

  /** Whatever is stored or reported for a part is the client's slice of the file. */
  ghost predicate RightBytes(blobs: seq<Blob>, p: Pool)
    requires QueueInOrder(p) && |blobs| == p.count
  {
    && (forall n: nat :: n in p.stored ==> 1 <= n <= p.count && p.stored[n] == blobs[n - 1])
    && (forall i :: 0 <= i < p.count && p.results[i].Some? ==>
          i + 1 in p.stored && p.results[i] == Some(PartTag(i + 1, blobs[i])))
  }

  predicate ProgressOk(p: Pool) {
    && p.completed == Done(p.results) == |p.progress|
    && forall i :: 0 <= i < |p.progress| ==> p.count > 0 && p.progress[i] == Percent(i + 1, p.count)
  }

  ghost predicate Inv(blobs: seq<Blob>, p: Pool) {
    && |blobs| == p.count && QueueInOrder(p)
    && OnePlaceEach(p) && PutsBounded(p) && RightBytes(blobs, p) && ProgressOk(p)
  }

  lemma DoneUpdate(results: seq<Option<PartTag>>, i: nat, tag: PartTag)
    requires i < |results| && results[i].None?
    ensures Done(results[i := Some(tag)]) == Done(results) + 1
  {
    TotalUpdate(results, OneIfDone, i, Some(tag));
  }

  lemma {:induction false} DoneBounds(results: seq<Option<PartTag>>)
    ensures Done(results) <= |results|
    ensures Done(results) == |results| <==> forall i :: 0 <= i < |results| ==> results[i].Some?
    ensures Done(results) == 0 <==> forall i :: 0 <= i < |results| ==> results[i].None?
  {
    if results != [] {
      DoneBounds(results[..|results| - 1]);
    }
  }

  // ----- every step keeps the invariant

  lemma InitialInv(blobs: seq<Blob>)
    ensures Inv(blobs, Initial(|blobs|))
  {
    DoneBounds(Initial(|blobs|).results);
  }

  /** Handing a part to a worker, or taking it back, moves nobody else's part. */
  lemma OthersStillHeld(p: Pool, w: nat, after: Worker)
    requires w < |p.workers|
    ensures forall part: nat :: part > 0 && part != Holds(p.workers[w]) && IsHeld(p, part) ==>
              IsHeld(p.(workers := p.workers[w := after]), part)
    ensures Holds(after) > 0 ==> IsHeld(p.(workers := p.workers[w := after]), Holds(after))
  {
    var q := p.(workers := p.workers[w := after]);
    assert q.workers[w] == after;
    forall part: nat | part > 0 && part != Holds(p.workers[w]) && IsHeld(p, part)
      ensures IsHeld(q, part)
    {
      var v :| 0 <= v < |p.workers| && Holds(p.workers[v]) == part;
      assert q.workers[v] == p.workers[v];
    }
  }

  lemma HeldSamePart(p: Pool, q: Pool, part: nat)
    requires p.workers == q.workers && IsHeld(p, part)
    ensures IsHeld(q, part)
  {
  }

  lemma RetireKeepsHolders(p: Pool, w: nat, q: Pool)
    requires QueueInOrder(p) && HoldersApart(p) && w < |p.workers| && p.workers[w].Idle? && p.queue == []
    requires q == p.(workers := p.workers[w := Finished])
    ensures QueueInOrder(q) && HoldersApart(q)
  {
  }

  lemma RetireKeepsPlaces(blobs: seq<Blob>, p: Pool, w: nat)
    requires Inv(blobs, p) && CanHappen(p, Resume(w)) && p.queue == []
    ensures var q := Step(blobs, p, Resume(w)); QueueInOrder(q) && OnePlaceEach(q)
  {
    var q := p.(workers := p.workers[w := Finished]);
    assert Step(blobs, p, Resume(w)) == q;
    RetireKeepsHolders(p, w, q);
    OthersStillHeld(p, w, Finished);
  }

  lemma TakeShape(blobs: seq<Blob>, p: Pool, w: nat)
    requires Inv(blobs, p) && CanHappen(p, Resume(w)) && p.queue != []
    ensures var part := p.queue[0];
            && part == Taken(p) + 1 && InRange(p, part)
            && Step(blobs, p, Resume(w))
               == p.(queue := p.queue[1..], workers := p.workers[w := Putting(part, 0)], puts := p.puts[part - 1 := 1])
  {
    assert p.queue[0] == Taken(p) + 1;
  }

  lemma TakeKeepsPlaces(blobs: seq<Blob>, p: Pool, w: nat)
    requires Inv(blobs, p) && CanHappen(p, Resume(w)) && p.queue != []
    ensures var q := Step(blobs, p, Resume(w)); QueueInOrder(q) && OnePlaceEach(q)
  {
    var q := Step(blobs, p, Resume(w));
    var part := p.queue[0];
    TakeShape(blobs, p, w);
    OthersStillHeld(p, w, Putting(part, 0));
    assert QueueInOrder(q);
    assert HoldersApart(q);
    forall i | 0 <= i < Taken(q) && q.results[i].None?
      ensures IsHeld(q, i + 1)
    {
      if i < Taken(p) {
        assert IsHeld(p, i + 1);
      }
      HeldSamePart(p.(workers := q.workers), q, i + 1);
    }
  }

  lemma ResumeKeepsInv(blobs: seq<Blob>, p: Pool, w: nat)
    requires Inv(blobs, p) && CanHappen(p, Resume(w))
    ensures Inv(blobs, Step(blobs, p, Resume(w)))
  {
    if p.queue == [] {
      RetireKeepsPlaces(blobs, p, w);
    } else {
      TakeKeepsPlaces(blobs, p, w);
    }
    var q := Step(blobs, p, Resume(w));
    forall v | 0 <= v < |q.workers|
      ensures AttemptOk(q, q.workers[v])
    {
      assert AttemptOk(p, p.workers[v]);
    }
  }

  lemma WakeKeepsPlaces(blobs: seq<Blob>, p: Pool, w: nat)
    requires Inv(blobs, p) && CanHappen(p, Wake(w))
    ensures var q := Step(blobs, p, Wake(w)); QueueInOrder(q) && OnePlaceEach(q)
  {
    assert AttemptOk(p, p.workers[w]);
    SettlingKeepsPlaces(p, Step(blobs, p, Wake(w)), w, false);
  }

  lemma WakeKeepsInv(blobs: seq<Blob>, p: Pool, w: nat)
    requires Inv(blobs, p) && CanHappen(p, Wake(w))
    ensures Inv(blobs, Step(blobs, p, Wake(w)))
  {
    WakeKeepsPlaces(blobs, p, w);
    var q := Step(blobs, p, Wake(w));
    assert AttemptOk(p, p.workers[w]);
    forall v | 0 <= v < |q.workers|
      ensures AttemptOk(q, q.workers[v])
    {
      assert AttemptOk(p, p.workers[v]);
    }
  }

  lemma RespondShape(blobs: seq<Blob>, p: Pool, w: nat, ok: bool, acted: bool)
    requires Inv(blobs, p) && CanHappen(p, Respond(w, ok, acted))
    ensures var q, part := Step(blobs, p, Respond(w, ok, acted)), p.workers[w].part;
            && InRange(p, part) && q.workers == p.workers[w := q.workers[w]]
            && (ok ==> q.workers[w].Idle? && q.results == p.results[part - 1 := Some(PartTag(part, blobs[part - 1]))])
            && (!ok ==> Holds(q.workers[w]) == part && q.results == p.results)
            && q.queue == p.queue && q.puts == p.puts && q.count == p.count
  {
    assert AttemptOk(p, p.workers[w]);
  }

  lemma RespondKeepsPlaces(blobs: seq<Blob>, p: Pool, w: nat, ok: bool, acted: bool)
    requires Inv(blobs, p) && CanHappen(p, Respond(w, ok, acted))
    ensures var q := Step(blobs, p, Respond(w, ok, acted)); QueueInOrder(q) && OnePlaceEach(q)
  {
    RespondShape(blobs, p, w, ok, acted);
    SettlingKeepsPlaces(p, Step(blobs, p, Respond(w, ok, acted)), w, ok);
  }

  /** Worker `w`, which holds a part, either hands in its result (`done`) or keeps holding the part. */
  ghost predicate Settles(p: Pool, q: Pool, w: nat, done: bool) {
    && w < |p.workers| == |q.workers| && InRange(p, Holds(p.workers[w]))
    && q.workers == p.workers[w := q.workers[w]] && q.queue == p.queue && q.count == p.count
    && |q.results| == |p.results| && |q.puts| == |p.puts|
    && (forall i :: 0 <= i < |p.results| && i != Holds(p.workers[w]) - 1 ==>
          q.results[i] == p.results[i] && q.puts[i] == p.puts[i])
    && (if done then q.workers[w].Idle? && q.results[Holds(p.workers[w]) - 1].Some?
        else Holds(q.workers[w]) == Holds(p.workers[w]) && q.results == p.results)
  }

  lemma SettlingKeepsPlaces(p: Pool, q: Pool, w: nat, done: bool)
    requires QueueInOrder(p) && OnePlaceEach(p) && Settles(p, q, w, done)
    ensures QueueInOrder(q) && OnePlaceEach(q)
  {
    SettlingKeepsHolders(p, q, w, done);
    SettlingLosesNothing(p, q, w, done);
  }

  lemma SettlingKeepsHolders(p: Pool, q: Pool, w: nat, done: bool)
    requires QueueInOrder(p) && HoldersApart(p) && Settles(p, q, w, done)
    ensures QueueInOrder(q) && HoldersApart(q)
  {
    if done {
      HandingInKeepsHolders(p, q, w);
    } else {
      HoldingOnKeepsHolders(p, q, w);
    }
  }

  lemma HandingInKeepsHolders(p: Pool, q: Pool, w: nat)
    requires QueueInOrder(p) && HoldersApart(p) && Settles(p, q, w, true)
    ensures QueueInOrder(q) && HoldersApart(q)
  {
    var part := Holds(p.workers[w]);
    assert forall v :: 0 <= v < |p.workers| && v != w ==>
        q.workers[v] == p.workers[v] && (Holds(p.workers[v]) > 0 ==> Holds(p.workers[v]) != part);
  }

  lemma HoldingOnKeepsHolders(p: Pool, q: Pool, w: nat)
    requires QueueInOrder(p) && HoldersApart(p) && Settles(p, q, w, false)
    ensures QueueInOrder(q) && HoldersApart(q)
  {
    assert forall v :: 0 <= v < |p.workers| ==> Holds(q.workers[v]) == Holds(p.workers[v]);
  }

  lemma SettlingLosesNothing(p: Pool, q: Pool, w: nat, done: bool)
    requires QueueInOrder(p) && OnePlaceEach(p) && Settles(p, q, w, done)
    ensures forall i :: 0 <= i < Taken(q) && q.results[i].None? ==> IsHeld(q, i + 1)
  {
    OthersStillHeld(p, w, q.workers[w]);
    forall i | 0 <= i < Taken(q) && q.results[i].None?
      ensures IsHeld(q, i + 1)
    {
      assert p.results[i].None? && IsHeld(p, i + 1);
      HeldSamePart(p.(workers := q.workers), q, i + 1);
    }
  }

  lemma RespondKeepsPuts(blobs: seq<Blob>, p: Pool, w: nat, ok: bool, acted: bool)
    requires Inv(blobs, p) && CanHappen(p, Respond(w, ok, acted))
    ensures PutsBounded(Step(blobs, p, Respond(w, ok, acted)))
  {
    var q := Step(blobs, p, Respond(w, ok, acted));
    assert AttemptOk(p, p.workers[w]);
    forall v | 0 <= v < |q.workers|
      ensures AttemptOk(q, q.workers[v])
    {
      assert AttemptOk(p, p.workers[v]);
    }
  }

  lemma RespondKeepsBytes(blobs: seq<Blob>, p: Pool, w: nat, ok: bool, acted: bool)
    requires Inv(blobs, p) && CanHappen(p, Respond(w, ok, acted))
    ensures var q := Step(blobs, p, Respond(w, ok, acted)); QueueInOrder(q) && RightBytes(blobs, q)
  {
    RespondShape(blobs, p, w, ok, acted);
    var part := p.workers[w].part;
    var q := Step(blobs, p, Respond(w, ok, acted));
    assert AttemptOk(p, p.workers[w]);
    assert q.stored == p.stored || q.stored == p.stored[part := blobs[part - 1]];
    assert q.results == p.results || (q.stored == p.stored[part := blobs[part - 1]]
                                        && q.results == p.results[part - 1 := Some(PartTag(part, blobs[part - 1]))]);
    BytesKept(blobs, p, q, part);
  }

  lemma BytesKept(blobs: seq<Blob>, p: Pool, q: Pool, part: nat)
    requires QueueInOrder(p) && QueueInOrder(q) && p.count == q.count == |blobs| && RightBytes(blobs, p)
    requires 1 <= part <= p.count
    requires q.stored == p.stored || q.stored == p.stored[part := blobs[part - 1]]
    requires || q.results == p.results
             || (part in q.stored && q.results == p.results[part - 1 := Some(PartTag(part, blobs[part - 1]))])
    ensures RightBytes(blobs, q)
  {
  }

  lemma RespondKeepsProgress(blobs: seq<Blob>, p: Pool, w: nat, ok: bool, acted: bool)
    requires Inv(blobs, p) && CanHappen(p, Respond(w, ok, acted))
    ensures ProgressOk(Step(blobs, p, Respond(w, ok, acted)))
  {
    RespondShape(blobs, p, w, ok, acted);
    var part := p.workers[w].part;
    assert AttemptOk(p, p.workers[w]);
    DoneUpdate(p.results, part - 1, PartTag(part, blobs[part - 1]));
  }

  lemma RespondKeepsInv(blobs: seq<Blob>, p: Pool, w: nat, ok: bool, acted: bool)
    requires Inv(blobs, p) && CanHappen(p, Respond(w, ok, acted))
    ensures Inv(blobs, Step(blobs, p, Respond(w, ok, acted)))
  {
    RespondKeepsPlaces(blobs, p, w, ok, acted);
    RespondKeepsPuts(blobs, p, w, ok, acted);
    RespondKeepsBytes(blobs, p, w, ok, acted);
    RespondKeepsProgress(blobs, p, w, ok, acted);
  }

  lemma StepKeepsInv(blobs: seq<Blob>, p: Pool, e: Event)
    requires Inv(blobs, p)
    ensures Inv(blobs, Step(blobs, p, e))
  {
    if CanHappen(p, e) {
      match e
      case Resume(w) => ResumeKeepsInv(blobs, p, w);
      case Wake(w) => WakeKeepsInv(blobs, p, w);
      case Respond(w, ok, acted) => RespondKeepsInv(blobs, p, w, ok, acted);
    }
  }

  lemma {:induction false} RunKeepsInv(blobs: seq<Blob>, p: Pool, schedule: seq<Event>)
    requires Inv(blobs, p)
    ensures Inv(blobs, Run(blobs, p, schedule))
    decreases |schedule|
  {
    if schedule != [] {
      RunKeepsInv(blobs, p, schedule[..|schedule| - 1]);
      StepKeepsInv(blobs, Run(blobs, p, schedule[..|schedule| - 1]), schedule[|schedule| - 1]);
    }
  }

  // ----- what the invariant means

  ghost predicate IsQueued(p: Pool, part: nat) { part in p.queue }

  ghost predicate IsDone(p: Pool, part: nat) { 1 <= part <= |p.results| && p.results[part - 1].Some? }

  lemma EveryPartHasAPlace(blobs: seq<Blob>, p: Pool, part: nat)
    requires Inv(blobs, p) && part > 0
    ensures part <= p.count <==> IsQueued(p, part) || IsHeld(p, part) || IsDone(p, part)
  {
    if part <= p.count {
      if part > Taken(p) {
        assert p.queue[part - Taken(p) - 1] == part;
      } else {
        assert p.results[part - 1].None? ==> IsHeld(p, part - 1 + 1);
      }
    }
  }

  lemma NoPartHasTwoPlaces(blobs: seq<Blob>, p: Pool, part: nat)
    requires Inv(blobs, p) && part > 0
    ensures !(IsQueued(p, part) && IsHeld(p, part))
    ensures !(IsQueued(p, part) && IsDone(p, part))
    ensures !(IsHeld(p, part) && IsDone(p, part))
  {
  }

  /**
   In every interleaving each part of the input is queued, held by exactly one of the workers, or done,
   and never two of these; nothing else is in the pool, and no part was PUT more than three times.  There
   are four workers, or one per part if that is fewer.
   */
  lemma PartsArePartitioned(blobs: seq<Blob>, schedule: seq<Event>, part: nat)
    requires part > 0
    ensures var p := Run(blobs, Initial(|blobs|), schedule);
            && (part <= |blobs| <==> IsQueued(p, part) || IsHeld(p, part) || IsDone(p, part))
            && !(IsQueued(p, part) && IsHeld(p, part))
            && !(IsQueued(p, part) && IsDone(p, part))
            && !(IsHeld(p, part) && IsDone(p, part))
            && |p.workers| == (if |blobs| < 4 then |blobs| else 4)
            && (forall v, w :: 0 <= v < w < |p.workers| && Holds(p.workers[v]) > 0 ==>
                  Holds(p.workers[v]) != Holds(p.workers[w]))
            && (forall i, j :: 0 <= i < j < |p.queue| ==> p.queue[i] != p.queue[j])
            && |p.puts| == |blobs| && (part <= |blobs| ==> p.puts[part - 1] <= 3)
  {
    InitialInv(blobs);
    RunKeepsInv(blobs, Initial(|blobs|), schedule);
    var p := Run(blobs, Initial(|blobs|), schedule);
    EveryPartHasAPlace(blobs, p, part);
    NoPartHasTwoPlaces(blobs, p, part);
  }

  // ----- outcomes

  /** Promise.all resolves. */
  predicate Succeeded(p: Pool) {
    forall w :: 0 <= w < |p.workers| ==> p.workers[w].Finished?
  }

  /** Promise.all rejects as soon as one worker throws; the others go on. */
  predicate Rejected(p: Pool) {
    exists w :: 0 <= w < |p.workers| && p.workers[w].Crashed?
  }

  ghost predicate Quiescent(p: Pool) {
    forall e :: !CanHappen(p, e)
  }

  /** The list uploadParts resolves with. */
  function Tags(p: Pool): seq<PartTag>
    requires forall i :: 0 <= i < |p.results| ==> p.results[i].Some?
  {
    seq(|p.results|, i requires 0 <= i < |p.results| => p.results[i].value)
  }

  /** With every worker finished there is no part left that could be anywhere but done. */
  lemma FinishedMeansDone(blobs: seq<Blob>, p: Pool)
    requires Inv(blobs, p) && Succeeded(p)
    ensures Done(p.results) == |blobs| && forall i :: 0 <= i < |blobs| ==> p.results[i].Some?
  {
    if |blobs| > 0 {
      assert p.workers[0].Finished?;
    }
    assert forall i :: 0 <= i < |blobs| && p.results[i].None? ==> IsHeld(p, i + 1);
    DoneBounds(p.results);
  }

  /**
   On success results[i] is part i + 1 with the tag of its own slice, the store holds exactly those
   slices, every part is counted, and the progress callback never went back and ended at 100.
   */
  lemma SuccessMeansComplete(blobs: seq<Blob>, schedule: seq<Event>)
    requires Succeeded(Run(blobs, Initial(|blobs|), schedule))
    ensures var p := Run(blobs, Initial(|blobs|), schedule);
            && |p.results| == |blobs| == p.completed == |p.progress|
            && (forall i :: 0 <= i < |blobs| ==> p.results[i] == Some(PartTag(i + 1, blobs[i])))
            && (forall n: nat :: n in p.stored <==> 1 <= n <= |blobs|)
            && (forall n :: n in p.stored ==> p.stored[n] == blobs[n - 1])
            && (forall i, j :: 0 <= i < j < |blobs| ==> p.progress[i] <= p.progress[j])
            && (|blobs| > 0 ==> p.progress[|blobs| - 1] == 100)
  {
    InitialInv(blobs);
    RunKeepsInv(blobs, Initial(|blobs|), schedule);
    var p := Run(blobs, Initial(|blobs|), schedule);
    FinishedMeansDone(blobs, p);
    forall n: nat | 1 <= n <= |blobs|
      ensures n in p.stored
    {
      assert p.results[n - 1].Some?;
      assert n - 1 + 1 in p.stored;
    }
    ProgressIsMonotone(p);
  }

  lemma ProgressIsMonotone(p: Pool)
    requires ProgressOk(p) && p.completed == p.count
    ensures forall i, j :: 0 <= i < j < p.count ==> p.progress[i] <= p.progress[j]
    ensures p.count > 0 ==> p.progress[p.count - 1] == 100
  {
    if p.count > 0 {
      PercentEnds(p.count);
    }
    forall i, j | 0 <= i < j < p.count
      ensures p.progress[i] <= p.progress[j]
    {
      PercentGrows(i + 1, j + 1, p.count);
    }
  }

  /** Percent is the nearest whole number, halves going up. */
  lemma PercentIsRounded(completed: nat, count: nat)
    requires count > 0
    ensures var off := 2 * (Percent(completed, count) * count - 100 * completed); 0 - count < off <= count
  {
    var x, d := 200 * completed + count, 2 * count;
    assert x == (x / d) * d + x % d;
    assert (x / d) * d == 2 * ((x / d) * count);
  }

  lemma PercentEnds(count: nat)
    requires count > 0
    ensures Percent(count, count) == 100
  {
    assert 200 * count + count == 100 * (2 * count) + count;
    DivIs(200 * count + count, 2 * count, 100, count);
  }

  lemma DivIs(a: nat, d: nat, q: nat, r: nat)
    requires d > 0 && a == q * d + r && r < d
    ensures a / d == q
  {
    var k := a / d;
    assert a == k * d + a % d;
    if k < q {
      MulMonotone(k + 1, q, d);
    } else if k > q {
      MulMonotone(q + 1, k, d);
    }
  }

  lemma PercentGrows(a: nat, b: nat, count: nat)
    requires count > 0 && a <= b
    ensures Percent(a, count) <= Percent(b, count)
  {
    var x, y, d := 200 * a + count, 200 * b + count, 2 * count;
    assert x == (x / d) * d + x % d;
    assert y == (y / d) * d + y % d;
    if x / d > y / d {
      MulMonotone(y / d + 1, x / d, d);
    }
  }

  /** Nothing hangs: once no event can happen, the upload has succeeded or been rejected. */
  lemma QuiescentIsSettled(p: Pool)
    requires Quiescent(p)
    ensures Succeeded(p) || Rejected(p)
  {
    forall w | 0 <= w < |p.workers|
      ensures p.workers[w].Finished? || p.workers[w].Crashed?
    {
      assert !CanHappen(p, Resume(w)) && !CanHappen(p, Respond(w, true, true)) && !CanHappen(p, Wake(w));
    }
  }

  // ----- termination

  function Weight(w: Worker): nat {
    match w
    case Idle => 1
    case Putting(_, attempt) => 2 + 2 * (if attempt < MAX_RETRIES then MAX_RETRIES - attempt else 0)
    case Sleeping(_, attempt) => 3 + 2 * (if attempt < MAX_RETRIES then MAX_RETRIES - attempt else 0)
    case _ => 0
  }

  function Weights(workers: seq<Worker>): nat { Total(workers, Weight) }

  /** What is left to do: seven for a queued part, and the unspent attempts of every worker. */
  function Measure(p: Pool): nat { 7 * |p.queue| + Weights(p.workers) }

  /** One resumption, of a worker whose state is in order, with a queue of the file's parts. */
  lemma EventDecreases(blobs: seq<Blob>, p: Pool, e: Event)
    requires |blobs| == p.count && CanHappen(p, e) && AttemptOk(p, p.workers[e.worker])
    requires p.queue != [] ==> InRange(p, p.queue[0])
    ensures Measure(Step(blobs, p, e)) < Measure(p)
  {
    TotalUpdate(p.workers, Weight, e.worker, Step(blobs, p, e).workers[e.worker]);
  }

  /** Every event that can happen brings the pool closer to its end, whichever worker it resumes. */
  lemma EventsDecrease(blobs: seq<Blob>, p: Pool, e: Event)
    requires Inv(blobs, p) && CanHappen(p, e)
    ensures Measure(Step(blobs, p, e)) < Measure(p)
  {
    assert AttemptOk(p, p.workers[e.worker]);
    EventDecreases(blobs, p, e);
  }

  /** A schedule every event of which can happen when its turn comes. */
  ghost predicate Effective(blobs: seq<Blob>, p: Pool, schedule: seq<Event>)
    requires |blobs| == p.count
    decreases |schedule|
  {
    schedule != [] ==>
      && Effective(blobs, p, schedule[..|schedule| - 1])
      && CanHappen(Run(blobs, p, schedule[..|schedule| - 1]), schedule[|schedule| - 1])
  }

  lemma {:induction false} SchedulesAreFinite(blobs: seq<Blob>, p: Pool, schedule: seq<Event>)
    requires Inv(blobs, p) && Effective(blobs, p, schedule)
    ensures |schedule| + Measure(Run(blobs, p, schedule)) <= Measure(p)
    decreases |schedule|
  {
    if schedule != [] {
      var init := schedule[..|schedule| - 1];
      SchedulesAreFinite(blobs, p, init);
      RunKeepsInv(blobs, p, init);
      EventsDecrease(blobs, Run(blobs, p, init), schedule[|schedule| - 1]);
    }
  }

  lemma {:induction false} IdleWeights(workers: seq<Worker>)
    requires forall w :: 0 <= w < |workers| ==> workers[w].Idle?
    ensures Weights(workers) == |workers|
  {
    if workers != [] {
      IdleWeights(workers[..|workers| - 1]);
    }
  }

  /** An upload of n parts is over after at most 7 * n + 4 resumptions, in every interleaving. */
  lemma UploadTerminates(blobs: seq<Blob>, schedule: seq<Event>)
    requires Effective(blobs, Initial(|blobs|), schedule)
    ensures |schedule| <= 7 * |blobs| + PART_CONCURRENCY
  {
    InitialInv(blobs);
    SchedulesAreFinite(blobs, Initial(|blobs|), schedule);
    IdleWeights(Initial(|blobs|).workers);
  }

  // ----- uploadParts

  /** The closures' shared variables; one method per stretch of code between two awaits. */
  class Upload {
    const blobs: seq<Blob>
    var queue: seq<nat>
    const results: array<Option<PartTag>>
    var completed: nat
    var progress: seq<nat>            // the calls of onProgress
    var workers: seq<Worker>
    ghost var puts: seq<nat>
    var stored: map<nat, Blob>        // what the store has received

    ghost function State(): Pool
      reads this, results
    {
      Pool(|blobs|, queue, workers, results[..], completed, progress, puts, stored)
    }

    constructor (blobs: seq<Blob>)
      ensures State() == Initial(|blobs|) && this.blobs == blobs && fresh(results)
    {
      this.blobs := blobs;
      queue := seq(|blobs|, i => i + 1);
      results := new Option<PartTag>[|blobs|](_ => None);
      completed, progress := 0, [];
      workers := seq(Min(PART_CONCURRENCY, |blobs|), _ => Idle);
      puts, stored := seq(|blobs|, _ => 0), map[];
      new;
      assert results[..] == Initial(|blobs|).results;
    }

    /** while (queue.length) { const next = queue.shift(); .. } up to the first fetch of putOne. */
    method OnResume(w: nat)
      requires Inv(blobs, State()) && CanHappen(State(), Resume(w))
      modifies this
      ensures State() == Step(blobs, old(State()), Resume(w))
    {
      if queue == [] {
        workers := workers[w := Finished];
      } else {
        var next := queue[0];
        queue := queue[1..];
        puts := puts[next - 1 := puts[next - 1] + 1];
        workers := workers[w := Putting(next, 0)];
      }
    }

    /** The back-off is over: the next attempt of putOne's loop. */
    method OnWake(w: nat)
      requires Inv(blobs, State()) && CanHappen(State(), Wake(w))
      modifies this
      ensures State() == Step(blobs, old(State()), Wake(w))
    {
      assert AttemptOk(State(), workers[w]);
      var part, attempt := workers[w].part, workers[w].attempt;
      puts := puts[part - 1 := puts[part - 1] + 1];
      workers := workers[w := Putting(part, attempt)];
    }

    /** fetch settled: record the part, or retry, or give up. */
    method OnResponse(w: nat, ok: bool, acted: bool)
      requires Inv(blobs, State()) && CanHappen(State(), Respond(w, ok, acted))
      modifies this, results
      ensures State() == Step(blobs, old(State()), Respond(w, ok, acted))
    {
      assert AttemptOk(State(), workers[w]);
      var part, attempt := workers[w].part, workers[w].attempt;
      var blob := blobs[part - 1];
      if ok || acted {
        stored := stored[part := blob];
      }
      if ok {
        results[part - 1] := Some(PartTag(part, blob));
        completed := completed + 1;
        progress := progress + [Percent(completed, |blobs|)];
        workers := workers[w := Idle];
      } else {
        workers := workers[w := if attempt < MAX_RETRIES then Sleeping(part, attempt + 1) else Crashed(part)];
      }
    }

    /** The event loop resumes workers in the order of `schedule`. */
    method RunAll(schedule: seq<Event>)
      requires Inv(blobs, State())
      modifies this, results
      ensures State() == Run(blobs, old(State()), schedule)
    {
      ghost var start := State();
      for k := 0 to |schedule|
        invariant State() == Run(blobs, start, schedule[..k]) && Inv(blobs, State())
      {
        var e := schedule[k];
        assert schedule[..k + 1][..k] == schedule[..k];
        StepKeepsInv(blobs, State(), e);
        if e.worker < |workers| {
          match e {
            case Resume(w) => if workers[w].Idle? { OnResume(w); }
            case Wake(w) => if workers[w].Sleeping? { OnWake(w); }
            case Respond(w, ok, acted) => if workers[w].Putting? { OnResponse(w, ok, acted); }
          }
        }
      }
      assert schedule[..|schedule|] == schedule;
    }
  }
}
