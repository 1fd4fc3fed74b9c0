/** layergkr/transcript.py: the Fiat-Shamir log, its byte framing, and the schedule that fixes the
    order of absorptions and coins. The hash is a parameter; its running state is the bytes fed. */
module Transcript {
  import opened NumberTheory
  import opened Field

  type Bytes = string

  /** What was done: a coin of count 0 stands for coin_bytes. */
  datatype Entry = Absorbed(name: string, data: Bytes) | Coin(name: string, count: nat)

  /** The part of an entry the hash sees. */
  datatype Key = AbsorbKey(name: string, data: Bytes) | CoinKey(name: string)

  function KeyOf(e: Entry): Key {
    match e case Absorbed(l, d) => AbsorbKey(l, d) case Coin(l, _) => CoinKey(l)
  }

  function Keys(log: seq<Entry>): (ks: seq<Key>)
    ensures |ks| == |log|
  {
    seq(|log|, i requires 0 <= i < |log| => KeyOf(log[i]))
  }

  // ------------------------------------------------------------------- framing

  function Byte(n: nat): char { (n % 256) as char }

  /** n.to_bytes(width, "little") */
  function Little(n: nat, width: nat): (b: Bytes)
    ensures |b| == width
  {
    if width == 0 then [] else [Byte(n)] + Little(n / 256, width - 1)
  }

  lemma {:induction false} LittleInjective(m: nat, n: nat, width: nat)
    requires m < Pow2(8 * width) && n < Pow2(8 * width) && Little(m, width) == Little(n, width)
    ensures m == n
  {
    if width > 0 {
      ByteBound(m, width);
      ByteBound(n, width);
      LittleParts(m, width);
      LittleParts(n, width);
      hide Little, Byte, Pow2;
      LittleInjective(m / 256, n / 256, width - 1);
      SameByte(m, n);
    } else {
      assert Pow2(0) == 1;
    }
  }

  lemma ByteBound(m: nat, width: nat)
    requires width > 0 && m < Pow2(8 * width)
    ensures 0 <= m / 256 < Pow2(8 * (width - 1))
  {
    hide Pow2;
    Pow2Add(8, 8 * (width - 1));
    EightBits();
  }

  lemma LittleParts(m: nat, width: nat)
    requires width > 0
    ensures Little(m, width)[0] == Byte(m) && Little(m, width)[1..] == Little(m / 256, width - 1)
  {
    hide Byte;
  }

  lemma SameByte(m: nat, n: nat)
    requires Byte(m) == Byte(n) && m / 256 == n / 256
    ensures m == n
  {}

  lemma EightBits()
    ensures Pow2(8) == 256
  {
    assert Pow2(4) == 16;
    Pow2Add(4, 4);
  }

  const TAG: Bytes := "\0coin"

  /** Absorptions frame their label and their data, coins a tag and their label. */
  function Frame(k: Key): Bytes {
    match k
    case AbsorbKey(name, data) => Little(|name|, 2) + name + (Little(|data|, 8) + data)
    case CoinKey(name) => TAG + Little(|name|, 2) + name
  }

  function Frames(ks: seq<Key>): Bytes {
    if ks == [] then [] else Frame(ks[0]) + Frames(ks[1..])
  }

  lemma {:induction false} FramesConcat(ks: seq<Key>, ls: seq<Key>)
    ensures Frames(ks + ls) == Frames(ks) + Frames(ls)
  {
    hide Frame;
    if ks == [] {
      assert ks + ls == ls;
    } else {
      FramesConcat(ks[1..], ls);
      assert (ks + ls)[1..] == ks[1..] + ls;
      Associate(Frame(ks[0]), Frames(ks[1..]), Frames(ls));
    }
  }

  lemma Associate<T>(a: seq<T>, b: seq<T>, c: seq<T>)
    ensures a + (b + c) == a + b + c
  {}

  lemma FramesSnoc(ks: seq<Key>, k: Key)
    ensures Frames(ks + [k]) == Frames(ks) + Frame(k)
  {
    FramesConcat(ks, [k]);
    assert Frames([k]) == Frame(k) + Frames([]);
  }

  /** Labels short enough to be told from the coin tag, data of fewer than 2^64 bytes. */
  predicate Short(k: Key, limit: nat) {
    |k.name| < limit && (k.AbsorbKey? ==> |k.data| < Pow2(64))
  }

  predicate AllShort(ks: seq<Key>, limit: nat) {
    forall i :: 0 <= i < |ks| ==> Short(ks[i], limit)
  }

  const LABEL_LIMIT := 0x6300

  lemma LengthBytes(n: nat)
    ensures Little(n, 2) == [Byte(n), Byte(n / 256)]
  {
    assert Little(n / 256 / 256, 0) == [];
    assert Little(n / 256, 1) == [Byte(n / 256)] + Little(n / 256 / 256, 0);
  }

  lemma CutEqual<T>(a: seq<T>, b: seq<T>, s: seq<T>, t: seq<T>)
    requires a + s == b + t && |a| == |b|
    ensures a == b && s == t
  {
    assert a == (a + s)[..|a|] == (b + t)[..|b|] == b;
    assert s == (a + s)[|a|..] == (b + t)[|b|..] == t;
  }

  lemma Widths()
    ensures Pow2(16) == 65536 && LABEL_LIMIT < Pow2(16)
  {
    EightBits();
    Pow2Add(8, 8);
  }

  /** A length-prefixed field can be read back. */
  lemma FieldReadsBack(a: Bytes, b: Bytes, s: Bytes, t: Bytes, width: nat)
    requires |a| < Pow2(8 * width) && |b| < Pow2(8 * width)
    requires Little(|a|, width) + a + s == Little(|b|, width) + b + t
    ensures a == b && s == t
  {
    hide Little, Pow2;
    Associate(Little(|a|, width), a, s);
    Associate(Little(|b|, width), b, t);
    CutEqual(Little(|a|, width), Little(|b|, width), a + s, b + t);
    LittleInjective(|a|, |b|, width);
    CutEqual(a, b, s, t);
  }

  /** An absorption never starts like a coin. */
  lemma KindsDiffer(name: string, rest: Bytes, more: Bytes)
    requires |name| < LABEL_LIMIT
    ensures Little(|name|, 2) + rest != TAG + more
  {
    LengthBytes(|name|);
    if Little(|name|, 2) + rest == TAG + more {
      assert (Little(|name|, 2) + rest)[0] == Byte(|name|) && (TAG + more)[0] == TAG[0] == 0 as char;
      assert (Little(|name|, 2) + rest)[1] == Byte(|name| / 256) && (TAG + more)[1] == TAG[1] == 'c';
      assert |name| / 256 < 0x63;
      ByteValue(|name| / 256);
    }
  }

  lemma ByteValue(n: nat)
    requires n < 256
    ensures Byte(n) as int == n && 'c' as int == 0x63
  {}

  lemma AbsorbFrame(a: string, x: Bytes, s: Bytes)
    ensures Frame(AbsorbKey(a, x)) + s == Little(|a|, 2) + a + (Little(|x|, 8) + x + s)
  {
    hide Little;
    Associate(Little(|a|, 2) + a, Little(|x|, 8) + x, s);
  }

  lemma CoinFrame(a: string, s: Bytes)
    ensures Frame(CoinKey(a)) + s == TAG + (Little(|a|, 2) + a + s)
  {
    hide Little, TAG;
    Associate(TAG, Little(|a|, 2), a);
    Associate(TAG, Little(|a|, 2) + a, s);
  }

  lemma AbsorbIsNoCoin(a: string, x: Bytes, s: Bytes, b: string, t: Bytes)
    requires |a| < LABEL_LIMIT
    ensures Frame(AbsorbKey(a, x)) + s != Frame(CoinKey(b)) + t
  {
    AbsorbFrame(a, x, s);
    CoinFrame(b, t);
    hide *;
    Associate(Little(|a|, 2), a, Little(|x|, 8) + x + s);
    KindsDiffer(a, a + (Little(|x|, 8) + x + s), Little(|b|, 2) + b + t);
  }

  lemma LabelFits(k: Key)
    requires Short(k, LABEL_LIMIT)
    ensures |k.name| < Pow2(8 * 2) && |k.name| < LABEL_LIMIT && (k.AbsorbKey? ==> |k.data| < Pow2(8 * 8))
  {
    Widths();
  }

  lemma FrameReadsBack(k: Key, l: Key, s: Bytes, t: Bytes)
    requires Short(k, LABEL_LIMIT) && Short(l, LABEL_LIMIT) && Frame(k) + s == Frame(l) + t
    ensures k == l && s == t
  {
    hide *;
    LabelFits(k);
    LabelFits(l);
    match (k, l)
    case (AbsorbKey(a, x), AbsorbKey(b, y)) =>
      AbsorbFrame(a, x, s);
      AbsorbFrame(b, y, t);
      FieldReadsBack(a, b, Little(|x|, 8) + x + s, Little(|y|, 8) + y + t, 2);
      FieldReadsBack(x, y, s, t, 8);
    case (CoinKey(a), CoinKey(b)) =>
      CoinFrame(a, s);
      CoinFrame(b, t);
      CutEqual(TAG, TAG, Little(|a|, 2) + a + s, Little(|b|, 2) + b + t);
      FieldReadsBack(a, b, s, t, 2);
    case (AbsorbKey(a, x), CoinKey(b)) =>
      AbsorbIsNoCoin(a, x, s, b, t);
    case (CoinKey(b), AbsorbKey(a, x)) =>
      AbsorbIsNoCoin(a, x, t, b, s);
  }

  /** The bytes fed to the hash determine the sequence of kinds, labels and data. */
  lemma {:induction false} FramingInjective(ks: seq<Key>, ls: seq<Key>)
    requires AllShort(ks, LABEL_LIMIT) && AllShort(ls, LABEL_LIMIT) && Frames(ks) == Frames(ls)
    ensures ks == ls
    decreases |ks| + |ls|
  {
    hide *;
    FramesUnfold(ks);
    FramesUnfold(ls);
    if ks != [] && ls != [] {
      ShortParts(ks);
      ShortParts(ls);
      FrameReadsBack(ks[0], ls[0], Frames(ks[1..]), Frames(ls[1..]));
      FramingInjective(ks[1..], ls[1..]);
      assert ks == [ks[0]] + ks[1..] && ls == [ls[0]] + ls[1..];
    }
  }

  lemma FramesUnfold(ks: seq<Key>)
    ensures ks == [] ==> Frames(ks) == []
    ensures ks != [] ==> Frames(ks) == Frame(ks[0]) + Frames(ks[1..]) && |Frames(ks)| > 0
  {}

  lemma ShortParts(ks: seq<Key>)
    requires ks != [] && AllShort(ks, LABEL_LIMIT)
    ensures Short(ks[0], LABEL_LIMIT) && AllShort(ks[1..], LABEL_LIMIT)
  {}

  /** An absorption with a label of 0x6300 characters reads like a coin and another absorption:
      the limit cannot be raised by one. */
  lemma FramingCollides() returns (ks: seq<Key>, ls: seq<Key>)
    ensures AllShort(ks, LABEL_LIMIT + 1) && AllShort(ls, LABEL_LIMIT + 1)
    ensures Frames(ks) == Frames(ls) && ks != ls
  {
    var filler := seq(25329, _ => 'a');
    var tail := seq(7, _ => 'b');
    var data := filler + (Little(7, 8) + tail);
    var name := "oin" + (Little(0, 2) + (Little(0, 2) + (Little(25344, 8) + filler)));
    ks, ls := [AbsorbKey(name, tail)], [CoinKey(""), AbsorbKey("", data)];
    LabelLimitBytes();
    assert |name| == LABEL_LIMIT && |data| == 25344;
    OneFrame(ks[0]);
    TwoFrames(ls[0], ls[1]);
    CollisionFrames(name, tail, data);
    hide *;
    CollisionBytes(filler, tail, name, data);
  }

  lemma CollisionFrames(name: string, tail: Bytes, data: Bytes)
    requires |name| == LABEL_LIMIT && |tail| == 7 && |data| == 25344
    ensures Frame(AbsorbKey(name, tail)) == Little(LABEL_LIMIT, 2) + name + (Little(7, 8) + tail)
    ensures Frame(CoinKey("")) + Frame(AbsorbKey("", data))
            == Little(LABEL_LIMIT, 2) + "oin" + Little(0, 2) + "" + (Little(0, 2) + (Little(25344, 8) + data))
  {
    LabelLimitBytes();
    hide Little;
    assert TAG == Little(LABEL_LIMIT, 2) + "oin";
    assert Frame(CoinKey("")) == TAG + Little(0, 2) + "";
    assert Little(0, 2) + "" == Little(0, 2);
    assert Frame(AbsorbKey("", data)) == Little(0, 2) + (Little(25344, 8) + data);
  }

  lemma LabelLimitBytes()
    ensures Little(LABEL_LIMIT, 2) == [0 as char, 'c'] && 25344 < Pow2(64)
  {
    LengthBytes(LABEL_LIMIT);
    Widths();
    Pow2Monotone(16, 64);
  }

  lemma OneFrame(k: Key)
    ensures Frames([k]) == Frame(k)
  {
    assert Frames([k][1..]) == [];
  }

  lemma TwoFrames(k: Key, l: Key)
    ensures Frames([k, l]) == Frame(k) + Frame(l)
  {
    assert [k, l][1..] == [l];
    OneFrame(l);
  }

  lemma CollisionBytes(filler: Bytes, tail: Bytes, name: string, data: Bytes)
    requires name == "oin" + (Little(0, 2) + (Little(0, 2) + (Little(25344, 8) + filler)))
    requires data == filler + (Little(7, 8) + tail)
    ensures Little(LABEL_LIMIT, 2) + name + (Little(7, 8) + tail)
            == Little(LABEL_LIMIT, 2) + "oin" + Little(0, 2) + "" + (Little(0, 2) + (Little(25344, 8) + data))
  {
    hide Little;
  }

  // ------------------------------------------------------------------ the schedule

  datatype Step = Step(kind: string, name: string)

  function StepOf(e: Entry): Step {
    Step(if e.Absorbed? then "absorb" else "coin", e.name)
  }

  function Steps(log: seq<Entry>): (s: seq<Step>)
    ensures |s| == |log|
  {
    seq(|log|, i requires 0 <= i < |log| => StepOf(log[i]))
  }

  lemma StepsSnoc(log: seq<Entry>, e: Entry)
    ensures Steps(log + [e]) == Steps(log) + [StepOf(e)]
  {}

  class Schedule {
    const steps: seq<Step>
    var pos: nat

    constructor (steps: seq<Step>)
      ensures this.steps == steps && pos == 0
    {
      this.steps := steps;
      pos := 0;
    }

    /** False is the CausalityError; it changes nothing. */
    method Check(kind: string, name: string) returns (ok: bool)
      modifies this
      ensures ok <==> old(pos) < |steps| && steps[old(pos)] == Step(kind, name)
      ensures pos == if ok then old(pos) + 1 else old(pos)
    {
      if pos >= |steps| {
        return false;
      }
      var want := steps[pos];
      if Step(kind, name) != want {
        return false;
      }
      pos := pos + 1;
      ok := true;
    }
  }

  // ---------------------------------------------------------------- the transcript

  /** BLAKE3 where the transcript uses it: over the bytes fed so far, and over that digest
      with a label and an index, or with a label alone. */
  datatype Oracle = Oracle(digest: Bytes -> Bytes, challenge: (Bytes, string, nat) -> int, seed: (Bytes, string) -> Bytes)

  datatype Drawn = Refused | Drew(values: seq<int>)
  datatype Seeded = NoSeed | Seed(seed: Bytes)

  function FedBy(domain: Bytes, log: seq<Entry>): Bytes {
    domain + Frames(Keys(log))
  }

  lemma FedSnoc(domain: Bytes, log: seq<Entry>, e: Entry)
    ensures FedBy(domain, log + [e]) == FedBy(domain, log) + Frame(KeyOf(e))
  {
    assert Keys(log + [e]) == Keys(log) + [KeyOf(e)];
    FramesSnoc(Keys(log), KeyOf(e));
  }

  lemma AbsorbFrameIs(name: string, data: Bytes)
    ensures Frame(KeyOf(Absorbed(name, data))) == Little(|name|, 2) + name + (Little(|data|, 8) + data)
  {}

  lemma CoinFrameIs(name: string, count: nat)
    ensures Frame(KeyOf(Coin(name, count))) == TAG + Little(|name|, 2) + name
  {}

  method Challenges(oracle: Oracle, state: Bytes, name: string, count: nat) returns (out: seq<int>)
    ensures |out| == count && forall i :: 0 <= i < count ==> out[i] == oracle.challenge(state, name, i) % P
  {
    out := [];
    for i := 0 to count
      invariant |out| == i && forall k :: 0 <= k < i ==> out[k] == oracle.challenge(state, name, k) % P
    {
      out := out + [oracle.challenge(state, name, i) % P];
    }
  }

  /** The coins drawn by an entry that follows `log`: they depend on what was logged before
      it and on nothing else. */
  function CoinsAfter(oracle: Oracle, domain: Bytes, log: seq<Entry>, name: string, count: nat): (c: seq<int>)
    ensures |c| == count
    ensures forall i :: 0 <= i < count ==> c[i] == oracle.challenge(oracle.digest(FedBy(domain, log)), name, i) % P
  {
    var state := oracle.digest(FedBy(domain, log));
    seq(count, i requires 0 <= i < count => oracle.challenge(state, name, i) % P)
  }

  class Transcript {
    const oracle: Oracle
    const domain: Bytes
    const schedule: Schedule?
    var fed: Bytes
    var log: seq<Entry>

    /** The hash has seen exactly the log, and the log is the schedule's prefix. */
    ghost predicate Valid()
      reads this, schedule
    {
      && fed == FedBy(domain, log)
      && (schedule != null ==> |log| == schedule.pos <= |schedule.steps| && Steps(log) == schedule.steps[..schedule.pos])
    }

    constructor (oracle: Oracle, domain: Bytes, schedule: Schedule?)
      requires schedule != null ==> schedule.pos == 0
      ensures Valid() && log == [] && this.oracle == oracle && this.domain == domain && this.schedule == schedule
    {
      this.oracle, this.domain, this.schedule := oracle, domain, schedule;
      fed, log := domain, [];
      new;
      assert Keys([]) == [];
    }

    /** Whether the schedule, if any, has this step next. */
    ghost predicate Allows(kind: string, name: string)
      reads this, schedule
    {
      schedule != null ==> schedule.pos < |schedule.steps| && schedule.steps[schedule.pos] == Step(kind, name)
    }

    method CheckStep(kind: string, name: string) returns (ok: bool)
      requires Valid()
      modifies schedule
      ensures ok == old(Allows(kind, name))
      ensures schedule != null ==> schedule.pos == if ok then old(schedule.pos) + 1 else old(schedule.pos)
    {
      ok := true;
      if schedule != null {
        ok := schedule.Check(kind, name);
      }
    }

    /** Feeds an entry's bytes and logs it, its step already taken. */
    method Record(e: Entry, bytes: Bytes)
      requires bytes == Frame(KeyOf(e)) && fed == FedBy(domain, log)
      requires schedule != null ==> |log| + 1 == schedule.pos <= |schedule.steps|
      requires schedule != null ==> Steps(log) + [StepOf(e)] == schedule.steps[..schedule.pos]
      modifies this
      ensures Valid() && log == old(log) + [e]
    {
      hide *;
      FedSnoc(domain, log, e);
      StepsSnoc(log, e);
      fed := fed + bytes;
      log := log + [e];
      ValidIs();
    }

    lemma ValidIs()
      ensures Valid() <==>
        (fed == FedBy(domain, log)
         && (schedule != null ==> |log| == schedule.pos <= |schedule.steps| && Steps(log) == schedule.steps[..schedule.pos]))
    {}

    /** False is the CausalityError of a step out of order; it changes nothing. */
    method Absorb(name: string, data: Bytes) returns (ok: bool)
      requires Valid() && |name| < 65536 && |data| < Pow2(64)
      modifies this, schedule
      ensures Valid() && ok == old(Allows("absorb", name))
      ensures log == if ok then old(log) + [Absorbed(name, data)] else old(log)
      ensures !ok ==> fed == old(fed) && (schedule != null ==> schedule.pos == old(schedule.pos))
    {
      hide Frame, Little, Steps, FedBy, Pow2;
      ok := CheckStep("absorb", name);
      if ok {
        AbsorbFrameIs(name, data);
        Record(Absorbed(name, data), Little(|name|, 2) + name + (Little(|data|, 8) + data));
      }
    }

    method DrawCoin(name: string, count: nat) returns (d: Drawn)
      requires Valid() && |name| < 65536
      modifies this, schedule
      ensures Valid() && d.Drew? == old(Allows("coin", name))
      ensures log == if d.Drew? then old(log) + [Coin(name, count)] else old(log)
      ensures d.Drew? ==> |d.values| == count
      ensures d.Drew? ==> forall i :: 0 <= i < count ==> d.values[i] == oracle.challenge(oracle.digest(old(fed)), name, i) % P
      ensures d.Drew? ==> d.values == CoinsAfter(oracle, domain, old(log), name, count)
      ensures d.Refused? ==> fed == old(fed) && (schedule != null ==> schedule.pos == old(schedule.pos))
    {
      hide Frame, Little, Steps, FedBy;
      var ok := CheckStep("coin", name);
      if !ok {
        return Refused;
      }
      var state := oracle.digest(fed);
      CoinFrameIs(name, count);
      Record(Coin(name, count), TAG + Little(|name|, 2) + name);
      var out := Challenges(oracle, state, name, count);
      d := Drew(out);
    }

    method CoinBytes(name: string) returns (d: Seeded)
      requires Valid() && |name| < 65536
      modifies this, schedule
      ensures Valid() && d.Seed? == old(Allows("coin", name))
      ensures log == if d.Seed? then old(log) + [Coin(name, 0)] else old(log)
      ensures d.Seed? ==> d.seed == oracle.seed(oracle.digest(old(fed)), name)
      ensures d.Seed? ==> d.seed == oracle.seed(oracle.digest(FedBy(domain, old(log))), name)
      ensures d.NoSeed? ==> fed == old(fed) && (schedule != null ==> schedule.pos == old(schedule.pos))
    {
      hide Frame, Little, Steps, FedBy;
      var ok := CheckStep("coin", name);
      if !ok {
        return NoSeed;
      }
      var state := oracle.digest(fed);
      CoinFrameIs(name, 0);
      Record(Coin(name, 0), TAG + Little(|name|, 2) + name);
      d := Seed(oracle.seed(state, name));
    }

  }

  predicate Replayable(log: seq<Entry>) {
    forall i :: 0 <= i < |log| ==> |log[i].name| < 65536 && (log[i].Absorbed? ==> |log[i].data| < Pow2(64))
  }

  /** Re-running a log reaches the state and the digest of the transcript that wrote it; with
      a schedule it succeeds exactly when the log is a prefix of the declared steps. */
  method Replay(log: seq<Entry>, oracle: Oracle, domain: Bytes, steps: seq<Step>, scheduled: bool)
    returns (ok: bool, t: Transcript)
    requires Replayable(log)
    ensures fresh(t) && t.Valid() && t.oracle == oracle && t.domain == domain
    ensures ok <==> (scheduled ==> Steps(log) <= steps)
    ensures ok ==> t.log == log && t.fed == FedBy(domain, log)
  {
    hide Frame, Frames, Little, FedBy, Keys;
    var schedule: Schedule? := null;
    if scheduled {
      schedule := new Schedule(steps);
    }
    t := new Transcript(oracle, domain, schedule);
    for i := 0 to |log|
      invariant t.Valid() && t.log == log[..i] && fresh(t) && (t.schedule != null ==> fresh(t.schedule))
      invariant t.oracle == oracle && t.domain == domain && scheduled == (t.schedule != null)
      invariant t.schedule != null ==> t.schedule.steps == steps
    {
      ghost var before := log[..i];
      assert log[..i + 1] == before + [log[i]];
      StepDecides(log, i, steps);
      match log[i]
      case Absorbed(name, data) =>
        ok := t.Absorb(name, data);
        if !ok { return; }
      case Coin(name, count) =>
        if count == 0 {
          var d := t.CoinBytes(name);
          if d.NoSeed? { return false, t; }
        } else {
          var d := t.DrawCoin(name, count);
          if d.Refused? { return false, t; }
        }
    }
    assert log[..|log|] == log;
    ok := true;
  }

  lemma StepDecides(log: seq<Entry>, i: nat, steps: seq<Step>)
    requires i < |log|
    ensures Steps(log[..i]) == Steps(log)[..i] && Steps(log)[i] == StepOf(log[i])
    ensures Steps(log) <= steps ==> i < |steps| && steps[i] == StepOf(log[i])
  {
    assert Steps(log) <= steps ==> steps[..|log|] == Steps(log);
    if Steps(log) <= steps { assert steps[i] == steps[..|log|][i]; }
  }

  /** No two byte strings have one digest. */
  ghost predicate Collisionless(digest: Bytes -> Bytes) {
    forall a, b :: digest(a) == digest(b) ==> a == b
  }

  /** The law the log exists for: whoever logs something else, in kind, label, data or order, draws from
      another state; so there are challenges that tell the two apart in their next coin, and seeds. */
  lemma CoinsBind(oracle: Oracle, domain: Bytes, a: seq<Entry>, b: seq<Entry>, name: string)
    returns (challenge: (Bytes, string, nat) -> int, seed: (Bytes, string) -> Bytes)
    requires AllShort(Keys(a), LABEL_LIMIT) && AllShort(Keys(b), LABEL_LIMIT) && Keys(a) != Keys(b)
    requires Collisionless(oracle.digest)
    ensures oracle.digest(FedBy(domain, a)) != oracle.digest(FedBy(domain, b))
    ensures CoinsAfter(oracle.(challenge := challenge), domain, a, name, 1)[0]
            != CoinsAfter(oracle.(challenge := challenge), domain, b, name, 1)[0]
    ensures seed(oracle.digest(FedBy(domain, a)), name) != seed(oracle.digest(FedBy(domain, b)), name)
  {
    hide FedBy, Keys, AllShort;
    if FedBy(domain, a) == FedBy(domain, b) { SameBytesSameLog(domain, a, b); }
    var state := oracle.digest(FedBy(domain, a));
    challenge := (s, n, i) => if s == state then 1 else 0;
    seed := (s, n) => if s == state then "1" else "";
    ModSmall(0, P);
    ModSmall(1, P);
  }

  /** One more entry, another one in its place: the coins after it are told apart. */
  lemma EntryBinds(oracle: Oracle, domain: Bytes, log: seq<Entry>, e: Entry, f: Entry, name: string)
    returns (challenge: (Bytes, string, nat) -> int)
    requires AllShort(Keys(log + [e]), LABEL_LIMIT) && AllShort(Keys(log + [f]), LABEL_LIMIT) && KeyOf(e) != KeyOf(f)
    requires Collisionless(oracle.digest)
    ensures CoinsAfter(oracle.(challenge := challenge), domain, log + [e], name, 1)[0]
            != CoinsAfter(oracle.(challenge := challenge), domain, log + [f], name, 1)[0]
  {
    assert Keys(log + [e])[|log|] != Keys(log + [f])[|log|];
    hide CoinsAfter, Keys, AllShort, KeyOf;
    var s;
    challenge, s := CoinsBind(oracle, domain, log + [e], log + [f], name);
  }

  /** Two transcripts over one domain that fed the hash the same bytes logged the same kinds,
      labels and data, in the same order. */
  lemma SameBytesSameLog(domain: Bytes, a: seq<Entry>, b: seq<Entry>)
    requires AllShort(Keys(a), LABEL_LIMIT) && AllShort(Keys(b), LABEL_LIMIT) && FedBy(domain, a) == FedBy(domain, b)
    ensures Keys(a) == Keys(b)
  {
    CutEqual(domain, domain, Frames(Keys(a)), Frames(Keys(b)));
    FramingInjective(Keys(a), Keys(b));
  }
}
