/**
 Trusted devices: a sliding 30-day window under a 90-day cap, and a trim that makes room for a new
 device.  `lastUse` and `clock` are history: when each device last passed verify, and the latest time seen.
 */
module TrustedDevices {
  import opened Wrappers
  import opened Counting

  type DeviceId = nat
  type UserId = nat
  type Hash = nat
  type Time = int   // milliseconds

  const TRUST_DURATION_MS := 30 * 24 * 60 * 60 * 1000
  const TRUST_ABSOLUTE_MAX_MS := 90 * 24 * 60 * 60 * 1000
  const MAX_TRUST_PER_USER := 10

  datatype Device = Device(userId: UserId, tokenHash: Hash, createdAt: Time, expiresAt: Time)

  datatype Registry = Registry(devices: map<DeviceId, Device>, lastUse: map<DeviceId, Time>, clock: Time)

  function Earlier(a: Time, b: Time): Time { if a < b then a else b }

  // ----- queries

  function RowsOf(devices: map<DeviceId, Device>, u: UserId): set<DeviceId> {
    set d | d in devices && devices[d].userId == u
  }

  /** countActiveByUserId counts these. */
  function ActiveOf(devices: map<DeviceId, Device>, u: UserId, now: Time): set<DeviceId> {
    set d | d in devices && devices[d].userId == u && devices[d].expiresAt > now
  }

  function ExpiredOf(devices: map<DeviceId, Device>, u: UserId, now: Time): set<DeviceId> {
    set d | d in devices && devices[d].userId == u && devices[d].expiresAt <= now
  }

  /** ORDER BY created_at LIMIT n: n rows (or all), none younger than a row left out; ties go either way. */
  predicate AreOldest(devices: map<DeviceId, Device>, u: UserId, n: int, victims: set<DeviceId>) {
    && victims <= RowsOf(devices, u)
    && |victims| == (if n <= 0 then 0 else if n < |RowsOf(devices, u)| then n else |RowsOf(devices, u)|)
    && forall v, d :: v in victims && d in RowsOf(devices, u) - victims ==> devices[v].createdAt <= devices[d].createdAt
  }

  function Overflow(devices: map<DeviceId, Device>, u: UserId, now: Time): int {
    |ActiveOf(devices, u, now)| - (MAX_TRUST_PER_USER - 1)
  }

  // ----- operations

  /** register: trim, then insert. */
  function RegisterDevice(s: Registry, u: UserId, id: DeviceId, hash: Hash, now: Time,
                          victims: set<DeviceId>): Registry {
    Registry((s.devices - victims)[id := Device(u, hash, now, now + TRUST_DURATION_MS)],
             (s.lastUse - victims)[id := now], now)
  }

  /** slideExpiresAt */
  function Slid(device: Device, now: Time): Time {
    var candidate, cap := now + TRUST_DURATION_MS, device.createdAt + TRUST_ABSOLUTE_MAX_MS;
    var next := if candidate < cap then candidate else cap;
    if next > device.expiresAt then next else device.expiresAt
  }

  predicate Accepts(s: Registry, id: DeviceId, hash: Hash, u: UserId, now: Time) {
    id in s.devices && s.devices[id].tokenHash == hash && s.devices[id].userId == u && !(s.devices[id].expiresAt <= now)
  }

  /** verify; `id` is the row findByTokenHash returns. */
  function VerifyDevice(s: Registry, id: DeviceId, hash: Hash, u: UserId, now: Time): Registry {
    if Accepts(s, id, hash, u, now) then
      Registry(s.devices[id := s.devices[id].(expiresAt := Slid(s.devices[id], now))], s.lastUse[id := now], now)
    else s.(clock := now)
  }

  function RevokeDevice(s: Registry, id: DeviceId, u: UserId, now: Time): Registry {
    if id in s.devices && s.devices[id].userId == u
    then Registry(s.devices - {id}, s.lastUse - {id}, now)
    else s.(clock := now)
  }

  datatype Step =
    | DoRegister(u: UserId, id: DeviceId, hash: Hash, now: Time, victims: set<DeviceId>)
    | DoVerify(id: DeviceId, hash: Hash, u: UserId, now: Time)
    | DoRevoke(id: DeviceId, u: UserId, now: Time)

  /** One clock that never runs back; ids and raw tokens are fresh; the trim obeys its query. */
  predicate Enabled(s: Registry, step: Step) {
    && s.clock <= step.now
    && (step.DoRegister? ==>
          && step.id !in s.devices && (forall d :: d in s.devices ==> s.devices[d].tokenHash != step.hash)
          && AreOldest(s.devices, step.u, Overflow(s.devices, step.u, step.now), step.victims))
  }

  function Apply(s: Registry, step: Step): Registry {
    match step
    case DoRegister(u, id, hash, now, victims) => RegisterDevice(s, u, id, hash, now, victims)
    case DoVerify(id, hash, u, now) => VerifyDevice(s, id, hash, u, now)
    case DoRevoke(id, u, now) => RevokeDevice(s, id, u, now)
  }

  predicate Run(s: Registry, steps: seq<Step>, t: Registry)
    decreases |steps|
  {
    if steps == [] then s == t
    else Enabled(s, steps[0]) && Run(Apply(s, steps[0]), steps[1..], t)
  }

  const EMPTY := Registry(map[], map[], 0)

  // ----- the window

  /** expiresAt is a function of the history: 30 days after the last use, but never 90 days after creation. */
  ghost predicate Inv(s: Registry) {
    && s.lastUse.Keys == s.devices.Keys
    && (forall d :: d in s.devices ==>
          && s.devices[d].createdAt <= s.lastUse[d] <= s.clock
          && s.devices[d].expiresAt ==
             Earlier(s.lastUse[d] + TRUST_DURATION_MS, s.devices[d].createdAt + TRUST_ABSOLUTE_MAX_MS))
    && (forall d, e :: d in s.devices && e in s.devices && s.devices[d].tokenHash == s.devices[e].tokenHash ==> d == e)
  }

  lemma TrimKeepsInv(s: Registry, victims: set<DeviceId>)
    requires Inv(s)
    ensures Inv(s.(devices := s.devices - victims, lastUse := s.lastUse - victims))
  {
    assert (s.lastUse - victims).Keys == (s.devices - victims).Keys;
  }

  lemma InsertKeepsInv(s: Registry, u: UserId, id: DeviceId, hash: Hash, now: Time)
    requires Inv(s) && s.clock <= now && id !in s.devices
    requires forall d :: d in s.devices ==> s.devices[d].tokenHash != hash
    ensures Inv(Registry(s.devices[id := Device(u, hash, now, now + TRUST_DURATION_MS)], s.lastUse[id := now], now))
  {
  }

  lemma RegisterKeepsInv(s: Registry, step: Step)
    requires Inv(s) && Enabled(s, step) && step.DoRegister?
    ensures Inv(Apply(s, step))
  {
    var trimmed := s.(devices := s.devices - step.victims, lastUse := s.lastUse - step.victims);
    TrimKeepsInv(s, step.victims);
    InsertKeepsInv(trimmed, step.u, step.id, step.hash, step.now);
  }

  lemma VerifyKeepsInv(s: Registry, id: DeviceId, hash: Hash, u: UserId, now: Time)
    requires Inv(s) && s.clock <= now
    ensures Inv(VerifyDevice(s, id, hash, u, now))
  {
  }

  lemma StepKeepsInv(s: Registry, step: Step)
    requires Inv(s) && Enabled(s, step)
    ensures Inv(Apply(s, step))
  {
    match step
    case DoRegister(_, _, _, _, _) => RegisterKeepsInv(s, step);
    case DoVerify(id, hash, u, now) => VerifyKeepsInv(s, id, hash, u, now);
    case DoRevoke(_, _, _) =>
  }

  lemma {:induction false} RunKeepsInv(s: Registry, steps: seq<Step>, t: Registry)
    requires Inv(s) && Run(s, steps, t)
    ensures Inv(t)
    decreases |steps|
  {
    if steps != [] {
      StepKeepsInv(s, steps[0]);
      RunKeepsInv(Apply(s, steps[0]), steps[1..], t);
    }
  }

  /**
   After any run, verify accepts a token exactly when its device was used in the last 30 days and
   created in the last 90: the comparisons and updates of slideExpiresAt amount to that rule.
   */
  lemma VerifyAcceptsIffInWindow(steps: seq<Step>, s: Registry, id: DeviceId, hash: Hash, u: UserId, now: Time)
    requires Run(EMPTY, steps, s) && s.clock <= now
    ensures Inv(s)
    ensures Accepts(s, id, hash, u, now) <==>
            && id in s.devices && s.devices[id].tokenHash == hash && s.devices[id].userId == u
            && now < s.lastUse[id] + TRUST_DURATION_MS
            && now < s.devices[id].createdAt + TRUST_ABSOLUTE_MAX_MS
  {
    RunKeepsInv(EMPTY, steps, s);
  }

  /** A device just registered is trusted for 30 days. */
  lemma RegisteredDeviceIsTrusted(s: Registry, step: Step, later: Time)
    requires Inv(s) && Enabled(s, step) && step.DoRegister?
    ensures var t := Apply(s, step);
            && (Accepts(t, step.id, step.hash, step.u, later) <==> later < step.now + TRUST_DURATION_MS)
            && t.devices[step.id].createdAt == step.now
  {
  }

  /** A device just used is trusted for 30 days more, but not past the 90th day; no other device is concerned. */
  lemma VerifiedDeviceIsTrusted(s: Registry, id: DeviceId, hash: Hash, u: UserId, now: Time, later: Time)
    requires Inv(s) && s.clock <= now && Accepts(s, id, hash, u, now)
    ensures var t := VerifyDevice(s, id, hash, u, now);
            && (Accepts(t, id, hash, u, later) <==>
                  later < now + TRUST_DURATION_MS && later < s.devices[id].createdAt + TRUST_ABSOLUTE_MAX_MS)
            && t.devices - {id} == s.devices - {id}
  {
    VerifyKeepsInv(s, id, hash, u, now);
  }

  /** The owner's revoke takes the device out for good, nobody else's does, and no other device goes. */
  lemma RevokedDeviceIsNotTrusted(s: Registry, id: DeviceId, hash: Hash, owner: UserId, u: UserId, now: Time,
                                  later: Time)
    requires s.clock <= now
    ensures var t := RevokeDevice(s, id, u, now);
            && (Accepts(t, id, hash, owner, later) <==> Accepts(s, id, hash, owner, later) && owner != u)
            && t.devices - {id} == s.devices - {id}
  {
  }

  /** A step never shortens the life of a device it keeps, and never changes when it was created. */
  lemma ExpiryOnlyGrows(s: Registry, step: Step, d: DeviceId)
    requires Inv(s) && Enabled(s, step) && d in s.devices && d in Apply(s, step).devices
    ensures s.devices[d].expiresAt <= Apply(s, step).devices[d].expiresAt
    ensures Apply(s, step).devices[d].expiresAt <= s.devices[d].createdAt + TRUST_ABSOLUTE_MAX_MS
    ensures Apply(s, step).devices[d].createdAt == s.devices[d].createdAt
    ensures Apply(s, step).devices[d].expiresAt <= Apply(s, step).lastUse[d] + TRUST_DURATION_MS
  {
    StepKeepsInv(s, step);
  }

  // ----- the trim

  lemma RowsSplit(devices: map<DeviceId, Device>, u: UserId, now: Time)
    ensures RowsOf(devices, u) == ActiveOf(devices, u, now) + ExpiredOf(devices, u, now)
    ensures ActiveOf(devices, u, now) !! ExpiredOf(devices, u, now)
    ensures |RowsOf(devices, u)| == |ActiveOf(devices, u, now)| + |ExpiredOf(devices, u, now)|
  {
    var a, e := ActiveOf(devices, u, now), ExpiredOf(devices, u, now);
    assert RowsOf(devices, u) == a + e;
    assert |a + e| == |a| + |e|;
  }

  /** Of the rows evicted, how many were already expired. */
  ghost function Wasted(s: Registry, u: UserId, now: Time, victims: set<DeviceId>): nat {
    |victims * ExpiredOf(s.devices, u, now)|
  }

  lemma VictimsSplit(s: Registry, u: UserId, now: Time, victims: set<DeviceId>)
    requires victims <= RowsOf(s.devices, u)
    ensures |victims * ActiveOf(s.devices, u, now)| == |victims| - Wasted(s, u, now, victims)
    ensures |ActiveOf(s.devices, u, now) - victims| ==
        |ActiveOf(s.devices, u, now)| - |victims| + Wasted(s, u, now, victims)
  {
    var a, e := ActiveOf(s.devices, u, now), ExpiredOf(s.devices, u, now);
    RowsSplit(s.devices, u, now);
    assert victims == victims * a + victims * e;
    assert (victims * a) !! (victims * e);
    assert a == (a - victims) + victims * a;
  }

  /**
   How many active devices a registration leaves.  The trim counts active rows but evicts the oldest
   of all rows, so each expired row among the evicted is one active device too many.
   */
  lemma ActiveAfterRegister(s: Registry, step: Step)
    requires Enabled(s, step) && step.DoRegister?
    ensures var before := |ActiveOf(s.devices, step.u, step.now)|;
            var after := |ActiveOf(Apply(s, step).devices, step.u, step.now)|;
            && after == (if before < MAX_TRUST_PER_USER then before + 1
                         else MAX_TRUST_PER_USER + Wasted(s, step.u, step.now, step.victims))
            && after <= MAX_TRUST_PER_USER + |ExpiredOf(s.devices, step.u, step.now)|
  {
    SubsetIsSmaller(step.victims * ExpiredOf(s.devices, step.u, step.now), ExpiredOf(s.devices, step.u, step.now));
    VictimCount(s, step);
    ActiveBesideVictims(s, step);
    VictimsSplit(s, step.u, step.now, step.victims);
    if step.victims == {} {
      assert Wasted(s, step.u, step.now, step.victims) == 0;
    }
  }

  lemma VictimCount(s: Registry, step: Step)
    requires Enabled(s, step) && step.DoRegister?
    ensures var before := |ActiveOf(s.devices, step.u, step.now)|;
            |step.victims| == if before < MAX_TRUST_PER_USER then 0 else before - (MAX_TRUST_PER_USER - 1)
    ensures step.victims <= RowsOf(s.devices, step.u)
  {
    SubsetIsSmaller(ActiveOf(s.devices, step.u, step.now), RowsOf(s.devices, step.u));
  }

  lemma ActiveBesideVictims(s: Registry, step: Step)
    requires Enabled(s, step) && step.DoRegister?
    ensures |ActiveOf(Apply(s, step).devices, step.u, step.now)| ==
        |ActiveOf(s.devices, step.u, step.now) - step.victims| + 1
  {
    ActiveBesides(s.devices, step.victims, step.id,
                  Device(step.u, step.hash, step.now, step.now + TRUST_DURATION_MS), step.now);
  }

  lemma ActiveBesides(devices: map<DeviceId, Device>, victims: set<DeviceId>, id: DeviceId, device: Device, now: Time)
    requires id !in devices && device.expiresAt > now
    ensures |ActiveOf((devices - victims)[id := device], device.userId, now)| ==
        |ActiveOf(devices, device.userId, now) - victims| + 1
  {
    assert ActiveOf((devices - victims)[id := device], device.userId, now) ==
        ActiveOf(devices, device.userId, now) - victims + {id};
  }

  /** The limit of ten holds after a registration exactly when no expired row was evicted in an active one's place. */
  lemma LimitHoldsIff(s: Registry, step: Step)
    requires Enabled(s, step) && step.DoRegister?
    ensures |ActiveOf(Apply(s, step).devices, step.u, step.now)| <= MAX_TRUST_PER_USER <==>
            |ActiveOf(s.devices, step.u, step.now)| < MAX_TRUST_PER_USER ||
            forall d :: d in step.victims ==> s.devices[d].expiresAt > step.now
  {
    ActiveAfterRegister(s, step);
    var wasted := step.victims * ExpiredOf(s.devices, step.u, step.now);
    if wasted != {} {
      var d :| d in wasted;
      assert |wasted| > 0;
    } else {
      assert forall d :: d in step.victims ==> d !in wasted;
    }
  }

  // ----- a run that breaks the limit

  const DAY := 24 * 60 * 60 * 1000

  /** User 0 registers device 0 on day 0 and devices 1 to k from day 31 on, one a millisecond. */
  function Fleet(k: nat): map<DeviceId, Device> {
    if k == 0 then map[0 := Device(0, 0, 0, TRUST_DURATION_MS)]
    else Fleet(k - 1)[k := Device(0, k, 31 * DAY + k, 31 * DAY + k + TRUST_DURATION_MS)]
  }

  function FleetUse(k: nat): map<DeviceId, Time> {
    if k == 0 then map[0 := 0] else FleetUse(k - 1)[k := 31 * DAY + k]
  }

  function FleetRegistry(k: nat): Registry {
    Registry(Fleet(k), FleetUse(k), if k == 0 then 0 else 31 * DAY + k)
  }

  lemma {:induction false} FleetShape(k: nat)
    ensures 0 in Fleet(k) && Fleet(k)[0] == Device(0, 0, 0, TRUST_DURATION_MS)
    ensures forall d :: d in Fleet(k) ==>
        d <= k && Fleet(k)[d].userId == 0 && Fleet(k)[d].tokenHash == d && Fleet(k)[d].createdAt >= 0
  {
    if k > 0 {
      FleetShape(k - 1);
    }
  }

  lemma AddActive(devices: map<DeviceId, Device>, id: DeviceId, device: Device, now: Time)
    requires id !in devices && device.userId == 0 && device.expiresAt > now
    ensures |ActiveOf(devices[id := device], 0, now)| == |ActiveOf(devices, 0, now)| + 1
    ensures |RowsOf(devices[id := device], 0)| == |RowsOf(devices, 0)| + 1
  {
    assert ActiveOf(devices[id := device], 0, now) == ActiveOf(devices, 0, now) + {id};
    assert RowsOf(devices[id := device], 0) == RowsOf(devices, 0) + {id};
  }

  lemma {:induction false} FleetCounts(k: nat, now: Time)
    requires 31 * DAY <= now <= 31 * DAY + 20
    ensures |ActiveOf(Fleet(k), 0, now)| == k && |RowsOf(Fleet(k), 0)| == k + 1
  {
    if k == 0 {
      assert ActiveOf(Fleet(0), 0, now) == {};
      assert RowsOf(Fleet(0), 0) == {0};
    } else {
      FleetCounts(k - 1, now);
      FleetShape(k - 1);
      AddActive(Fleet(k - 1), k, Device(0, k, 31 * DAY + k, 31 * DAY + k + TRUST_DURATION_MS), now);
    }
  }

  lemma FleetGrows(k: nat)
    requires k < MAX_TRUST_PER_USER
    ensures var step := DoRegister(0, k + 1, k + 1, 31 * DAY + k + 1, {});
            Enabled(FleetRegistry(k), step) && Apply(FleetRegistry(k), step) == FleetRegistry(k + 1)
  {
    FleetCounts(k, 31 * DAY + k + 1);
    FleetShape(k);
    assert Fleet(k) - {} == Fleet(k) && FleetUse(k) - {} == FleetUse(k);
  }

  lemma {:induction false} RunAppend(s: Registry, steps: seq<Step>, t: Registry, last: Step)
    requires Run(s, steps, t) && Enabled(t, last)
    ensures Run(s, steps + [last], Apply(t, last))
    decreases |steps|
  {
    if steps == [] {
      assert ([last])[1..] == [];
    } else {
      RunAppend(Apply(s, steps[0]), steps[1..], t, last);
      assert (steps + [last])[1..] == steps[1..] + [last];
    }
  }

  lemma FirstDevice()
    ensures Enabled(EMPTY, DoRegister(0, 0, 0, 0, {})) && Apply(EMPTY, DoRegister(0, 0, 0, 0, {})) == FleetRegistry(0)
  {
    assert ActiveOf(EMPTY.devices, 0, 0) == {};
    assert EMPTY.devices - {} == map[] && EMPTY.lastUse - {} == map[];
  }

  lemma {:induction false} FleetIsReachable(k: nat) returns (steps: seq<Step>)
    requires k <= MAX_TRUST_PER_USER
    ensures Run(EMPTY, steps, FleetRegistry(k))
  {
    var before: seq<Step>, last: Step;
    if k == 0 {
      FirstDevice();
      before, last := [], DoRegister(0, 0, 0, 0, {});
      RunAppend(EMPTY, before, EMPTY, last);
    } else {
      before := FleetIsReachable(k - 1);
      last := DoRegister(0, k, k, 31 * DAY + k, {});
      FleetGrows(k - 1);
      RunAppend(EMPTY, before, FleetRegistry(k - 1), last);
    }
    steps := before + [last];
  }

  /** Twelve registrations: the last one evicts the device that expired on day 30 and leaves eleven active. */
  lemma LimitCanBeExceeded() returns (steps: seq<Step>, t: Registry)
    ensures Run(EMPTY, steps, t) && |ActiveOf(t.devices, 0, t.clock)| == MAX_TRUST_PER_USER + 1
  {
    var k := MAX_TRUST_PER_USER;
    var before := FleetIsReachable(k);
    var now := 31 * DAY + k + 1;
    FleetCounts(k, now);
    FleetShape(k);
    var s, step := FleetRegistry(k), DoRegister(0, k + 1, k + 1, now, {0});
    assert 0 in RowsOf(s.devices, 0);
    assert AreOldest(s.devices, 0, 1, {0});
    assert {0} * ExpiredOf(s.devices, 0, now) == {0};
    ActiveAfterRegister(s, step);
    RunAppend(EMPTY, before, s, step);
    steps, t := before + [step], Apply(s, step);
  }

  // ----- the service

  ghost predicate IsOldest(devices: map<DeviceId, Device>, rows: set<DeviceId>, d: DeviceId)
    requires rows <= devices.Keys
  {
    d in rows && forall e :: e in rows ==> devices[d].createdAt <= devices[e].createdAt
  }

  lemma {:induction false} OldestExists(devices: map<DeviceId, Device>, rows: set<DeviceId>) returns (d: DeviceId)
    requires rows != {} && rows <= devices.Keys
    ensures IsOldest(devices, rows, d)
  {
    d :| d in rows;
    if rows != {d} {
      var rest := rows - {d};
      var e := OldestExists(devices, rest);
      assert forall x :: x in rows ==> x == d || x in rest;
      d := if devices[d].createdAt < devices[e].createdAt then d else e;
    }
  }

  /** What the select has picked when it stops. */
  lemma ChosenAreOldest(devices: map<DeviceId, Device>, u: UserId, n: int, chosen: set<DeviceId>,
                        remaining: set<DeviceId>)
    requires n > 0 && chosen !! remaining && chosen + remaining == RowsOf(devices, u) && |chosen| <= n
    requires |chosen| == n || remaining == {}
    requires forall v, d :: v in chosen && d in remaining ==> devices[v].createdAt <= devices[d].createdAt
    ensures AreOldest(devices, u, n, chosen)
  {
    var all := RowsOf(devices, u);
    assert all - chosen == remaining && |all| == |chosen| + |remaining|;
  }

  class TrustedDeviceService {
    var devices: map<DeviceId, Device>
    ghost var lastUse: map<DeviceId, Time>
    ghost var clock: Time

    ghost function State(): Registry
      reads this
    {
      Registry(devices, lastUse, clock)
    }

    constructor ()
      ensures State() == EMPTY
    {
      devices, lastUse, clock := map[], map[], 0;
    }

    /** trusted-device.repository.ts, deleteOldestByUserId. */
    method DeleteOldestByUserId(u: UserId, deleteCount: int) returns (ghost victims: set<DeviceId>)
      modifies this`devices
      ensures AreOldest(old(devices), u, deleteCount, victims) && devices == old(devices) - victims
    {
      victims := {};
      if deleteCount <= 0 {
        assert devices == devices - victims;
        return;
      }
      ghost var all := RowsOf(devices, u);
      var remaining := RowsOf(devices, u);
      var chosen: set<DeviceId> := {};
      while |chosen| < deleteCount && remaining != {}
        invariant all == RowsOf(devices, u) && devices == old(devices) && chosen !! remaining
        invariant chosen + remaining == all && |chosen| <= deleteCount
        invariant forall v, d :: v in chosen && d in remaining ==> devices[v].createdAt <= devices[d].createdAt
        decreases remaining
      {
        ghost var least := OldestExists(devices, remaining);
        var d :| d in remaining && forall e :: e in remaining ==> devices[d].createdAt <= devices[e].createdAt;
        remaining := remaining - {d};
        chosen := chosen + {d};
      }
      ChosenAreOldest(devices, u, deleteCount, chosen, remaining);
      devices := devices - chosen;
      victims := chosen;
    }

    method Register(u: UserId, id: DeviceId, hash: Hash, now: Time) returns (ghost victims: set<DeviceId>)
      requires clock <= now && id !in devices && forall d :: d in devices ==> devices[d].tokenHash != hash
      modifies this
      ensures Enabled(old(State()), DoRegister(u, id, hash, now, victims))
      ensures State() == Apply(old(State()), DoRegister(u, id, hash, now, victims))
    {
      var expiresAt := now + TRUST_DURATION_MS;
      var active := |ActiveOf(devices, u, now)|;
      var overflow := active - (MAX_TRUST_PER_USER - 1);
      victims := DeleteOldestByUserId(u, overflow);
      devices := devices[id := Device(u, hash, now, expiresAt)];
      lastUse := (lastUse - victims)[id := now];
      clock := now;
    }

    /** `found` is the row findByTokenHash returns, if any. */
    method Verify(found: Option<DeviceId>, hash: Hash, u: UserId, now: Time) returns (ok: bool)
      requires if found.Some? then found.value in devices && devices[found.value].tokenHash == hash
               else forall d :: d in devices ==> devices[d].tokenHash != hash
      modifies this
      ensures found.Some? ==> ok == Accepts(old(State()), found.value, hash, u, now)
                              && State() == VerifyDevice(old(State()), found.value, hash, u, now)
      ensures found.None? ==> !ok && State() == old(State()).(clock := now)
    {
      clock := now;
      if found.None? {
        return false;
      }
      var id := found.value;
      var device := devices[id];
      if device.userId != u || device.expiresAt <= now {
        return false;
      }
      var candidateExpiresAt := now + TRUST_DURATION_MS;
      var hardCapAt := device.createdAt + TRUST_ABSOLUTE_MAX_MS;
      var newExpiresAt := if candidateExpiresAt < hardCapAt then candidateExpiresAt else hardCapAt;
      if newExpiresAt > device.expiresAt {
        devices := devices[id := device.(expiresAt := newExpiresAt)];
      } else {
        assert devices == devices[id := device];
      }
      lastUse := lastUse[id := now];
      ok := true;
    }
  }
}
