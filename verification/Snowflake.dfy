// Order numbers: ids packed from a clock reading, a worker id and a sequence number. The clock may stall,
// jump back or jump ahead between any two readings.
module Snowflake {
  import opened Common

  const EPOCH: int := 1704067200000
  const MAX_WORKER: int := 1023
  const SEQUENCES: int := 4096
  const MAX_BACKWARD_NANOS: int := 5_000_000_000

  // What an id is made of besides the worker; also what a generator remembers of the last one.
  datatype Stamp = Stamp(millis: int, sequence: int)

  datatype Answer = Issued(stamp: Stamp) | BeforeEpoch | MovedBack | Starved

  // One call: the answer, what the generator remembers afterwards and the readings not yet taken. A call
  // that is still waiting for the clock when the readings end is Starved.
  datatype Call = Call(answer: Answer, last: Stamp, rest: seq<int>)

  const FRESH := Stamp(-1, 0)

  // The two fields side by side: the shifted time has its low 22 bits clear and the worker and sequence fill
  // 10 and 12 of them, so the bitwise or is a sum. Shifting drops what leaves the 64 bits.
  function Pack(worker: int, s: Stamp): int {
    Wrap64((s.millis - EPOCH) * 0x40_0000) + worker * 0x1000 + s.sequence
  }

  predicate Before(s: Stamp, t: Stamp) {
    s.millis < t.millis || (s.millis == t.millis && s.sequence < t.sequence)
  }

  predicate Remembers(s: Stamp) {
    (s == FRESH || EPOCH <= s.millis) && 0 <= s.sequence < SEQUENCES
  }

  // waitNextMillis: the readings up to the first one after last.
  function Skip(last: int, clock: seq<int>): (r: seq<int>)
    ensures |r| <= |clock|
    ensures r != [] ==> last < r[0]
  {
    if clock == [] || last < clock[0] then clock else Skip(last, clock[1..])
  }

  // The part of a call after the checks on the clock.
  function Issue(last: Stamp, now: int, clock: seq<int>): (r: Call)
    ensures |r.rest| <= |clock|
  {
    if now != last.millis then Call(Issued(Stamp(now, 0)), Stamp(now, 0), clock)
    else
      var sequence := (last.sequence + 1) % SEQUENCES;
      if sequence != 0 then Call(Issued(Stamp(now, sequence)), Stamp(now, sequence), clock)
      else
        var later := Skip(last.millis, clock);
        if later == [] then Call(Starved, Stamp(last.millis, 0), [])
        else Call(Issued(Stamp(later[0], 0)), Stamp(later[0], 0), later[1..])
  }

  // The pause before the clock is read again is a time.Duration, an int64 of nanoseconds.
  predicate TooFarBack(last: int, now: int) {
    Wrap64((last - now) * 1_000_000) > MAX_BACKWARD_NANOS
  }

  function Next(last: Stamp, clock: seq<int>): (r: Call)
    ensures clock != [] ==> |r.rest| < |clock|
  {
    if clock == [] then Call(Starved, last, [])
    else
      var now, rest := clock[0], clock[1..];
      if now < EPOCH then Call(BeforeEpoch, last, rest)
      else if now >= last.millis then Issue(last, now, rest)
      else if TooFarBack(last.millis, now) then Call(MovedBack, last, rest)
      else if rest == [] then Call(Starved, last, [])
      else if rest[0] < last.millis then Call(MovedBack, last, rest[1..])
      else Issue(last, rest[0], rest[1..])
  }

  // All the ids a generator hands out along a clock trace, call after call.
  function Run(last: Stamp, clock: seq<int>): seq<Stamp>
    decreases |clock|
  {
    if clock == [] then []
    else
      var c := Next(last, clock);
      (if c.answer.Issued? then [c.answer.stamp] else []) + Run(c.last, c.rest)
  }

  // ------------------------------------------------------------------ the generator

  class Clock {
    var readings: seq<int>

    constructor (readings: seq<int>)
      ensures this.readings == readings
    {
      this.readings := readings;
    }

    method Read() returns (now: Option<int>)
      modifies this
      ensures old(readings) == [] ==> now.None? && readings == []
      ensures old(readings) != [] ==> now == Some(old(readings)[0]) && readings == old(readings)[1..]
    {
      if readings == [] { return None; }
      now := Some(readings[0]);
      readings := readings[1..];
    }
  }

  class Generator {
    const worker: int
    var sequence: int
    var lastMillis: int

    ghost predicate Valid()
      reads this
    {
      0 <= worker <= MAX_WORKER && Remembers(Memory())
    }

    ghost function Memory(): Stamp
      reads this
    {
      Stamp(lastMillis, sequence)
    }

    constructor (worker: int)
      requires 0 <= worker <= MAX_WORKER
      ensures Valid() && this.worker == worker && Memory() == FRESH
    {
      this.worker, sequence, lastMillis := worker, 0, -1;
    }

    method WaitNext(clock: Clock) returns (now: Option<int>)
      modifies clock
      ensures var later := Skip(lastMillis, old(clock.readings));
              if later == [] then now.None? && clock.readings == []
              else now == Some(later[0]) && clock.readings == later[1..]
    {
      now := clock.Read();
      while now.Some? && now.value <= lastMillis
        invariant now.None? ==> clock.readings == [] && Skip(lastMillis, old(clock.readings)) == []
        invariant now.Some? ==> Skip(lastMillis, [now.value] + clock.readings) == Skip(lastMillis, old(clock.readings))
        decreases |clock.readings| + if now.Some? then 1 else 0
      {
        ghost var left := [now.value] + clock.readings;
        assert left[1..] == clock.readings;
        now := clock.Read();
        if now.Some? { assert left[1..] == [now.value] + clock.readings; }
      }
      if now.Some? { assert ([now.value] + clock.readings)[1..] == clock.readings; }
    }

    method Finish(now: int, clock: Clock) returns (r: Result<int, Answer>)
      requires Valid() && EPOCH <= now && lastMillis <= now
      modifies this, clock
      ensures var c := Issue(old(Memory()), now, old(clock.readings));
              && Memory() == c.last && clock.readings == c.rest
              && r == if c.answer.Issued? then Ok(Pack(worker, c.answer.stamp)) else Err(c.answer)
      ensures Valid()
    {
      var at := now;
      if now == lastMillis {
        sequence := (sequence + 1) % SEQUENCES;
        if sequence == 0 {
          var later := WaitNext(clock);
          if later.None? { return Err(Starved); }
          at := later.value;
        }
      } else {
        sequence := 0;
      }
      lastMillis := at;
      r := Ok(Wrap64((at - EPOCH) * 0x40_0000) + worker * 0x1000 + sequence);
    }

    method NextID(clock: Clock) returns (r: Result<int, Answer>)
      requires Valid()
      modifies this, clock
      ensures var c := Next(old(Memory()), old(clock.readings));
              && Memory() == c.last && clock.readings == c.rest
              && r == if c.answer.Issued? then Ok(Pack(worker, c.answer.stamp)) else Err(c.answer)
      ensures Valid()
    {
      var now := clock.Read();
      if now.None? { return Err(Starved); }
      if now.value < EPOCH { return Err(BeforeEpoch); }
      if now.value < lastMillis {
        if TooFarBack(lastMillis, now.value) { return Err(MovedBack); }
        now := clock.Read();
        if now.None? { return Err(Starved); }
        if now.value < lastMillis { return Err(MovedBack); }
      }
      r := Finish(now.value, clock);
    }
  }

  // NewSnowflake refuses a worker id that does not fit its ten bits.
  method NewGenerator(worker: int) returns (g: Option<Generator>)
    ensures g.Some? <==> 0 <= worker <= MAX_WORKER
    ensures g.Some? ==> g.value.Valid() && fresh(g.value) && g.value.worker == worker && g.value.Memory() == FRESH
  {
    if worker < 0 || worker > MAX_WORKER { return None; }
    var made := new Generator(worker);
    g := Some(made);
  }

  // ------------------------------------------------------------------ one generator

  // Every id comes strictly after the one before, whatever the clock does, and is what is remembered.
  lemma NextAdvances(last: Stamp, clock: seq<int>)
    requires Remembers(last)
    ensures var c := Next(last, clock);
            && Remembers(c.last)
            && (c.answer.Issued? ==> c.answer.stamp == c.last && Before(last, c.last) && EPOCH <= c.last.millis)
            && (!c.answer.Issued? ==> c.last == last || c.rest == [])
  {
  }

  // The sequence starts at zero with every new millisecond and counts within it; when its 4096 numbers are used up
  // the call waits for the first reading of a later one.
  lemma SequenceCounts(last: Stamp, now: int, clock: seq<int>)
    requires Remembers(last) && EPOCH <= now && last.millis <= now
    ensures var c := Next(last, [now] + clock);
            && (now > last.millis ==> c.answer == Issued(Stamp(now, 0)) && c.rest == clock)
            && (now == last.millis && last.sequence < 4095 ==>
                  c.answer == Issued(Stamp(now, last.sequence + 1)) && c.rest == clock)
            && (now == last.millis && last.sequence == 4095 ==>
                  forall k: nat :: FirstAfter(clock, k, now) ==>
                    c.answer == Issued(Stamp(clock[k], 0)) && c.rest == clock[k + 1..])
  {
    assert ([now] + clock)[1..] == clock;
    forall k: nat | FirstAfter(clock, k, now) ensures Skip(now, clock) == clock[k..] { SkipsTo(clock, k, now); }
  }

  ghost predicate FirstAfter(clock: seq<int>, k: nat, millis: int) {
    k < |clock| && clock[k] > millis && forall j :: 0 <= j < k ==> clock[j] <= millis
  }

  lemma {:induction false} SkipsTo(clock: seq<int>, k: nat, millis: int)
    requires FirstAfter(clock, k, millis)
    ensures Skip(millis, clock) == clock[k..]
    decreases k
  {
    if k > 0 {
      assert clock[0] <= millis;
      SkipsTo(clock[1..], k - 1, millis);
      assert clock[1..][k - 1..] == clock[k..];
    }
  }

  // Before its epoch a generator hands out nothing and remembers what it did.
  lemma NothingBeforeTheEpoch(last: Stamp, now: int, clock: seq<int>)
    requires now < EPOCH
    ensures var c := Next(last, [now] + clock); c.answer == BeforeEpoch && c.last == last && c.rest == clock
  {
    assert ([now] + clock)[1..] == clock;
  }

  lemma {:induction false} RunFollows(last: Stamp, clock: seq<int>)
    requires Remembers(last)
    ensures forall k :: 0 <= k < |Run(last, clock)| ==> Before(last, Run(last, clock)[k])
    ensures forall k :: 0 <= k < |Run(last, clock)| ==>
              EPOCH <= Run(last, clock)[k].millis && 0 <= Run(last, clock)[k].sequence < SEQUENCES
    ensures forall j, k :: 0 <= j < k < |Run(last, clock)| ==> Before(Run(last, clock)[j], Run(last, clock)[k])
    decreases |clock|
  {
    if clock != [] {
      var c := Next(last, clock);
      NextAdvances(last, clock);
      RunFollows(c.last, c.rest);
      var tail := Run(c.last, c.rest);
      if c.answer.Issued? {
        assert Run(last, clock) == [c.last] + tail;
      } else {
        assert Run(last, clock) == tail;
        if c.rest == [] { assert tail == []; }
      }
    }
  }

  // ------------------------------------------------------------------ the packed id

  predicate Fields(worker: int, s: Stamp) {
    0 <= worker <= MAX_WORKER && 0 <= s.sequence < SEQUENCES && EPOCH <= s.millis
  }

  const SPAN: int := 0x400_0000_0000      // 2^42 milliseconds

  // The shift keeps the low 42 bits of the elapsed time, read as a signed number.
  lemma ShiftKeeps(e: int)
    ensures Wrap64(e * 0x40_0000) == ((e + 0x200_0000_0000) % SPAN - 0x200_0000_0000) * 0x40_0000
  {
  }

  // The worker and the sequence can always be read back from an id.
  lemma LowBitsDecode(worker: int, s: Stamp)
    requires Fields(worker, s)
    ensures Pack(worker, s) % SEQUENCES == s.sequence
    ensures Pack(worker, s) / 0x1000 % 0x400 == worker
    ensures Pack(worker, s) / 0x40_0000 == (s.millis - EPOCH + 0x200_0000_0000) % SPAN - 0x200_0000_0000
  {
    ShiftKeeps(s.millis - EPOCH);
    FieldsDecode((s.millis - EPOCH + 0x200_0000_0000) % SPAN - 0x200_0000_0000, worker, s.sequence);
  }

  lemma FieldsDecode(high: int, worker: int, sequence: int)
    requires 0 <= worker <= MAX_WORKER && 0 <= sequence < SEQUENCES
    ensures var id := high * 0x40_0000 + worker * 0x1000 + sequence;
            id % SEQUENCES == sequence && id / 0x1000 % 0x400 == worker && id / 0x40_0000 == high
  {
  }

  // The time can be read back exactly while the elapsed milliseconds fit in 41 bits.
  lemma TimeDecodesIff(worker: int, s: Stamp)
    requires Fields(worker, s)
    ensures Pack(worker, s) / 0x40_0000 == s.millis - EPOCH <==> s.millis - EPOCH < 0x200_0000_0000
  {
    LowBitsDecode(worker, s);
  }

  // Two ids are the same only for the same worker and sequence number, a multiple of 2^42 milliseconds
  // apart. So generators with different worker ids never collide.
  lemma SameIdIff(w: int, s: Stamp, v: int, t: Stamp)
    requires Fields(w, s) && Fields(v, t)
    ensures Pack(w, s) == Pack(v, t) <==> w == v && s.sequence == t.sequence && (t.millis - s.millis) % SPAN == 0
  {
    LowBitsDecode(w, s);
    LowBitsDecode(v, t);
    SameRemainderIff(s.millis - EPOCH + 0x200_0000_0000, t.millis - EPOCH + 0x200_0000_0000);
    ShiftKeeps(s.millis - EPOCH);
    ShiftKeeps(t.millis - EPOCH);
  }

  lemma SameRemainderIff(a: int, b: int)
    ensures a % SPAN == b % SPAN <==> (b - a) % SPAN == 0
  {
  }

  // Packing keeps the order of the stamps while the later one fits.
  lemma PackKeepsOrder(worker: int, s: Stamp, t: Stamp)
    requires Fields(worker, s) && Fields(worker, t) && t.millis - EPOCH < 0x200_0000_0000
    requires Before(s, t)
    ensures 0 <= Pack(worker, s) < Pack(worker, t)
  {
  }

  // For every clock trace the ids of one generator strictly increase and name their stamps.
  lemma IdsIncrease(worker: int, clock: seq<int>, j: nat, k: nat)
    requires 0 <= worker <= MAX_WORKER
    requires j < k < |Run(FRESH, clock)| && Run(FRESH, clock)[k].millis - EPOCH < 0x200_0000_0000
    ensures Pack(worker, Run(FRESH, clock)[j]) < Pack(worker, Run(FRESH, clock)[k])
  {
    RunFollows(FRESH, clock);
    PackKeepsOrder(worker, Run(FRESH, clock)[j], Run(FRESH, clock)[k]);
  }

  // Two generators never hand out the same id, at any time.
  lemma WorkersNeverCollide(w: int, v: int, clock: seq<int>, other: seq<int>, j: nat, k: nat)
    requires 0 <= w <= MAX_WORKER && 0 <= v <= MAX_WORKER && w != v
    requires j < |Run(FRESH, clock)| && k < |Run(FRESH, other)|
    ensures Pack(w, Run(FRESH, clock)[j]) != Pack(v, Run(FRESH, other)[k])
  {
    RunFollows(FRESH, clock);
    RunFollows(FRESH, other);
    SameIdIff(w, Run(FRESH, clock)[j], v, Run(FRESH, other)[k]);
  }

  // After 41 bits of milliseconds the order breaks: the id that follows the last one that fits is negative.
  lemma OrderBreaks(worker: int)
    requires 0 <= worker <= MAX_WORKER
    ensures var last := EPOCH + 0x1FF_FFFF_FFFF;
            && Run(FRESH, [last, last + 1]) == [Stamp(last, 0), Stamp(last + 1, 0)]
            && Pack(worker, Stamp(last + 1, 0)) < 0 < Pack(worker, Stamp(last, 0))
  {
    var last := EPOCH + 0x1FF_FFFF_FFFF;
    assert [last, last + 1][1..] == [last + 1] && [last + 1][1..] == [];
    assert Run(Stamp(last + 1, 0), []) == [];
    assert Run(Stamp(last, 0), [last + 1]) == [Stamp(last + 1, 0)];
  }

  // ------------------------------------------------------------------ a clock that jumps back

  // A clock that went back by at most five seconds is read once more: if it has caught up by then an id is handed
  // out as if nothing had happened, and otherwise the call fails. After a larger jump it fails at once. The pause
  // is counted in an int64 of nanoseconds, so this holds for jumps of less than 2^63 of them.
  lemma JumpBack(last: Stamp, now: int, again: int, clock: seq<int>)
    requires Remembers(last) && EPOCH <= now < last.millis && (last.millis - now) * 1_000_000 <= INT64_MAX
    ensures var c := Next(last, [now, again] + clock);
            if last.millis - now > 5_000 then c.answer == MovedBack && c.last == last && c.rest == [again] + clock
            else if again < last.millis then c.answer == MovedBack && c.last == last && c.rest == clock
            else c == Next(last, [again] + clock) && c.answer != MovedBack
  {
    assert ([now, again] + clock)[1..] == [again] + clock && ([again] + clock)[1..] == clock;
  }
}
