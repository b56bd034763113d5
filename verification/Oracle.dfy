/**
 * The portable key-value application (apporacle/apporacle.go): a machine that keeps its whole
 * history, checkpoints that carry it, and a restore that replays it from the beginning.  All
 * digests are arbitrary functions: nothing here relies on their having no collisions.
 */
module Oracle {
  import opened RaftTypes
  import opened Octets
  import opened Commands
  import opened Application

  const MAX_COMMANDS: nat := 50_000
  const MAX_HISTORY_BYTES: nat := 0xC0_0000
  const MAX_STATE_BYTES: nat := 0x80_0000
  const MAX_CHECKPOINT_BYTES: nat := 0x400_0000

  type Pairs = seq<Pair>
  datatype Pair = Pair(key: Bytes, value: Bytes)

  /** The digests: of a command, of a state, and of a chain link. */
  datatype Hashes = Hashes(
    genesis: Bytes,
    command: Bytes -> Bytes,
    state: map<Bytes, Bytes> -> Bytes,
    link: (Bytes, nat, Bytes, Bytes) -> Bytes)

  datatype Block = Block(ordinal: nat, id: CommandID, command: Bytes, commandDigest: Bytes, stateDigest: Bytes, digest: Bytes)

  datatype State = State(
    kv: map<Bytes, Bytes>,
    seen: map<CommandID, Bytes>,
    history: seq<Block>,
    chain: Bytes,
    historyBytes: nat,
    stateBytes: int)

  function New(H: Hashes): State {
    State(map[], map[], [], H.genesis, 0, 0)
  }

  // ----- one command -----

  function KeysAfter(kv: map<Bytes, Bytes>, c: Command): map<Bytes, Bytes> {
    if c.operation == PUT then kv[c.key := c.value]
    else if c.operation == DELETE then kv - {c.key}
    else kv
  }

  function BytesAfter(m: State, c: Command): int {
    var held := if c.key in m.kv then |m.kv[c.key]| else 0;
    if c.operation == PUT then
      m.stateBytes + |c.value| + (if c.key in m.kv then -held else |c.key|)
    else if c.operation == DELETE && c.key in m.kv then m.stateBytes - |c.key| - held
    else m.stateBytes
  }

  function NextBlock(H: Hashes, m: State, c: Command, canonical: Bytes): Block {
    var digest := H.state(KeysAfter(m.kv, c));
    Block(|m.history| + 1, c.id, canonical, H.command(canonical), digest, H.link(m.chain, |m.history| + 1, canonical, digest))
  }

  function ApplyCanonical(H: Hashes, m: State, c: Command, canonical: Bytes): Result<State> {
    if c.id in m.seen then Err(DuplicateCommand)
    else if |m.history| >= MAX_COMMANDS || |canonical| > MAX_HISTORY_BYTES - m.historyBytes then Err(TooLarge)
    else if BytesAfter(m, c) > MAX_STATE_BYTES then Err(TooLarge)
    else
      var block := NextBlock(H, m, c, canonical);
      Ok(State(KeysAfter(m.kv, c), m.seen[c.id := block.commandDigest], m.history + [block], block.digest,
               m.historyBytes + |canonical|, BytesAfter(m, c)))
  }

  function ApplyEncoded(H: Hashes, m: State, data: Bytes): Result<State> {
    match DecodeCommand(data)
    case Err(e) => Err(e)
    case Ok(c) => ApplyCanonical(H, m, c, data)
  }

  /** The machine as an object: a refused command leaves it unchanged. */
  class Machine {
    const hashes: Hashes
    var kv: map<Bytes, Bytes>
    var seen: map<CommandID, Bytes>
    var history: seq<Block>
    var chain: Bytes
    var historyBytes: nat
    var stateBytes: int

    function Value(): State
      reads this
    {
      State(kv, seen, history, chain, historyBytes, stateBytes)
    }

    constructor (hashes: Hashes)
      ensures this.hashes == hashes && Value() == New(hashes)
    {
      this.hashes := hashes;
      kv, seen, history, chain, historyBytes, stateBytes := map[], map[], [], hashes.genesis, 0, 0;
    }

    method Apply(command: Command, canonical: Bytes) returns (r: Result<Block>)
      requires ValidCommand(command)
      modifies this
      ensures match ApplyCanonical(hashes, old(Value()), command, canonical)
              case Err(e) => r == Err(e) && Value() == old(Value())
              case Ok(m) => Value() == m && r == Ok(m.history[|m.history| - 1])
    {
      if command.id in seen { return Err(DuplicateCommand); }
      if |history| >= MAX_COMMANDS || |canonical| > MAX_HISTORY_BYTES - historyBytes { return Err(TooLarge); }
      var bytes := stateBytes;
      if command.operation == PUT {
        if command.key in kv { bytes := bytes - |kv[command.key]|; } else { bytes := bytes + |command.key|; }
        bytes := bytes + |command.value|;
      } else if command.key in kv {
        bytes := bytes - (|command.key| + |kv[command.key]|);
      }
      if bytes > MAX_STATE_BYTES { return Err(TooLarge); }
      if command.operation == PUT { kv := kv[command.key := command.value]; } else { kv := kv - {command.key}; }
      var ordinal := |history| + 1;
      var stateDigest := hashes.state(kv);
      chain := hashes.link(chain, ordinal, canonical, stateDigest);
      var block := Block(ordinal, command.id, canonical, hashes.command(canonical), stateDigest, chain);
      seen := seen[command.id := block.commandDigest];
      history := history + [block];
      historyBytes := historyBytes + |canonical|;
      stateBytes := bytes;
      r := Ok(block);
    }

    method ApplyData(data: Bytes) returns (r: Result<Block>)
      modifies this
      ensures match ApplyEncoded(hashes, old(Value()), data)
              case Err(e) => r == Err(e) && Value() == old(Value())
              case Ok(m) => Value() == m && r == Ok(m.history[|m.history| - 1])
    {
      var decoded := DecodeCommand(data);
      if decoded.Err? { return Err(decoded.error); }
      r := Apply(decoded.value, data);
    }

    /** The pairs in the order of their keys. */
    method Sorted() returns (pairs: Pairs)
      ensures Canonical(pairs, kv)
    {
      hide Canonical, Inserted;
      pairs := [];
      var left := kv.Keys;
      NothingCanonical();
      assert kv - left == map[];
      while left != {}
        invariant left <= kv.Keys
        invariant Canonical(pairs, kv - left)
        decreases |left|
      {
        var k :| k in left;
        InsertedCanonical(pairs, kv - left, k, kv[k]);
        pairs := Inserted(pairs, Pair(k, kv[k]));
        assert (kv - left)[k := kv[k]] == kv - (left - {k});
        left := left - {k};
      }
      assert kv - {} == kv;
    }
  }

  // ----- sorted pairs -----

  ghost predicate Ascending(pairs: Pairs) {
    forall i, j | 0 <= i < j < |pairs| :: Less(pairs[i].key, pairs[j].key)
  }

  function MapOf(pairs: Pairs): map<Bytes, Bytes> {
    if pairs == [] then map[]
    else MapOf(pairs[..|pairs| - 1])[pairs[|pairs| - 1].key := pairs[|pairs| - 1].value]
  }

  /** The one sorted listing of a state. */
  ghost predicate Canonical(pairs: Pairs, kv: map<Bytes, Bytes>) {
    Ascending(pairs) && MapOf(pairs) == kv
  }

  function Inserted(pairs: Pairs, p: Pair): Pairs {
    if pairs == [] || Less(pairs[|pairs| - 1].key, p.key) then pairs + [p]
    else Inserted(pairs[..|pairs| - 1], p) + [pairs[|pairs| - 1]]
  }

  lemma {:induction false} MapOfKeys(pairs: Pairs, k: Bytes)
    ensures k in MapOf(pairs) <==> exists i :: 0 <= i < |pairs| && pairs[i].key == k
  {
    if pairs != [] {
      MapOfKeys(pairs[..|pairs| - 1], k);
      if k == pairs[|pairs| - 1].key { assert pairs[|pairs| - 1].key == k; }
    }
  }

  lemma {:induction false} MapOfAt(pairs: Pairs, i: nat)
    requires Ascending(pairs) && i < |pairs|
    ensures pairs[i].key in MapOf(pairs) && MapOf(pairs)[pairs[i].key] == pairs[i].value
  {
    var n := |pairs| - 1;
    if i < n {
      MapOfAt(pairs[..n], i);
      LessTotal(pairs[i].key, pairs[n].key);
    }
  }

  lemma NothingCanonical()
    ensures Canonical([], map[])
  {
  }

  lemma {:induction false} InsertedCanonical(pairs: Pairs, kv: map<Bytes, Bytes>, k: Bytes, v: Bytes)
    requires Canonical(pairs, kv) && k !in kv
    ensures Canonical(Inserted(pairs, Pair(k, v)), kv[k := v])
  {
    var p := Pair(k, v);
    if pairs == [] || Less(pairs[|pairs| - 1].key, k) {
      assert (pairs + [p])[..|pairs|] == pairs;
      forall i | 0 <= i < |pairs|
        ensures Less(pairs[i].key, k)
      {
        if i < |pairs| - 1 { LessTransitive(pairs[i].key, pairs[|pairs| - 1].key, k); }
      }
    } else {
      var front, last := pairs[..|pairs| - 1], pairs[|pairs| - 1];
      MapOfKeys(pairs, k);
      LessTotal(last.key, k);
      MapOfKeys(front, last.key);
      MapOfKeys(front, k);
      forall i | 0 <= i < |front|
        ensures front[i].key != last.key
      {
        LessTotal(front[i].key, last.key);
      }
      InsertedCanonical(front, MapOf(front), k, v);
      var r := Inserted(front, p);
      assert (r + [last])[..|r|] == r;
      InsertedBelow(front, p, last.key);
      assert MapOf(front)[k := v][last.key := last.value] == MapOf(front)[last.key := last.value][k := v];
    }
  }

  lemma {:induction false} InsertedBelow(pairs: Pairs, p: Pair, k: Bytes)
    requires Less(p.key, k) && forall i | 0 <= i < |pairs| :: Less(pairs[i].key, k)
    ensures forall i | 0 <= i < |Inserted(pairs, p)| :: Less(Inserted(pairs, p)[i].key, k)
  {
    if pairs != [] && !Less(pairs[|pairs| - 1].key, p.key) {
      InsertedBelow(pairs[..|pairs| - 1], p, k);
    }
  }

  /** There is no other sorted listing. */
  lemma {:induction false} CanonicalUnique(a: Pairs, b: Pairs, kv: map<Bytes, Bytes>)
    requires Canonical(a, kv) && Canonical(b, kv)
    ensures a == b
  {
    if a == [] {
      if b != [] { MapOfAt(b, 0); }
    } else {
      var x, y := |a| - 1, |b| - 1;
      MapOfAt(a, x);
      MapOfKeys(b, a[x].key);
      var i :| 0 <= i < |b| && b[i].key == a[x].key;
      MapOfAt(b, y);
      MapOfKeys(a, b[y].key);
      var j :| 0 <= j < |a| && a[j].key == b[y].key;
      LessTotal(a[x].key, b[y].key);
      assert i == y && j == x;
      DropLast(a);
      DropLast(b);
      CanonicalUnique(a[..x], b[..y], kv - {a[x].key});
      assert a == a[..x] + [a[x]] && b == b[..y] + [b[y]];
    }
  }

  lemma UndoUpdate(m: map<Bytes, Bytes>, k: Bytes, v: Bytes)
    requires k !in m
    ensures m[k := v] - {k} == m
  {
  }

  lemma DropLast(pairs: Pairs)
    requires Ascending(pairs) && pairs != []
    ensures Canonical(pairs[..|pairs| - 1], MapOf(pairs) - {pairs[|pairs| - 1].key})
  {
    hide Less;
    var front, k := pairs[..|pairs| - 1], pairs[|pairs| - 1].key;
    if k in MapOf(front) {
      MapOfKeys(front, k);
      var i :| 0 <= i < |front| && front[i].key == k;
      assert pairs[i].key == k;
      LessTotal(k, k);
    }
    UndoUpdate(MapOf(front), k, pairs[|pairs| - 1].value);
  }

  ghost function SortedPairs(kv: map<Bytes, Bytes>): (r: Pairs)
    ensures Canonical(r, kv)
  {
    if kv == map[] then []
    else
      var k :| k in kv;
      InsertedCanonical(SortedPairs(kv - {k}), kv - {k}, k, kv[k]);
      assert (kv - {k})[k := kv[k]] == kv;
      Inserted(SortedPairs(kv - {k}), Pair(k, kv[k]))
  }

  // ----- byte counts -----

  ghost function Size(kv: map<Bytes, Bytes>): nat {
    if kv == map[] then 0 else var k :| k in kv; |k| + |kv[k]| + Size(kv - {k})
  }

  lemma {:induction false} SizeWithout(kv: map<Bytes, Bytes>, k: Bytes)
    requires k in kv
    ensures Size(kv) == |k| + |kv[k]| + Size(kv - {k})
    decreases |kv|
  {
    var j :| j in kv && Size(kv) == |j| + |kv[j]| + Size(kv - {j});
    if j != k {
      SizeWithout(kv - {j}, k);
      SizeWithout(kv - {k}, j);
      assert kv - {j} - {k} == kv - {k} - {j};
    }
  }

  lemma SizeAfter(m: State, c: Command)
    requires m.stateBytes == Size(m.kv) && ValidCommand(c)
    ensures BytesAfter(m, c) == Size(KeysAfter(m.kv, c))
  {
    var after := KeysAfter(m.kv, c);
    if c.key in m.kv {
      SizeWithout(m.kv, c.key);
    } else {
      assert m.kv - {c.key} == m.kv;
    }
    if c.operation == PUT {
      SizeWithout(after, c.key);
      assert after - {c.key} == m.kv - {c.key};
    }
  }

  function SumOf(pairs: Pairs): nat {
    if pairs == [] then 0
    else SumOf(pairs[..|pairs| - 1]) + |pairs[|pairs| - 1].key| + |pairs[|pairs| - 1].value|
  }

  lemma {:induction false} SumIsSize(pairs: Pairs)
    requires Ascending(pairs)
    ensures SumOf(pairs) == Size(MapOf(pairs))
  {
    if pairs != [] {
      var front, last := pairs[..|pairs| - 1], pairs[|pairs| - 1];
      DropLast(pairs);
      SumIsSize(front);
      MapOfAt(pairs, |pairs| - 1);
      SizeWithout(MapOf(pairs), last.key);
    }
  }

  // ----- reachable machines -----

  /** The machine after a sequence of commands, each accepted. */
  function Fed(H: Hashes, commands: seq<Bytes>): Option<State> {
    if commands == [] then Some(New(H))
    else
      match Fed(H, commands[..|commands| - 1])
      case None => None
      case Some(m) =>
        match ApplyEncoded(H, m, commands[|commands| - 1])
        case Err(_) => None
        case Ok(m1) => Some(m1)
  }

  function TotalLength(commands: seq<Bytes>): nat {
    if commands == [] then 0 else TotalLength(commands[..|commands| - 1]) + |commands[|commands| - 1]|
  }

  function CommandsOf(history: seq<Block>): seq<Bytes> {
    seq(|history|, i requires 0 <= i < |history| => history[i].command)
  }

  predicate PairFits(p: Pair) {
    0 < |p.key| <= MAX_KEY_BYTES && |p.value| <= MAX_VALUE_BYTES
  }

  ghost predicate Counted(m: State, commands: seq<Bytes>) {
    && CommandsOf(m.history) == commands
    && |commands| <= MAX_COMMANDS
    && m.historyBytes == TotalLength(commands) <= MAX_HISTORY_BYTES
    && m.stateBytes == Size(m.kv) <= MAX_STATE_BYTES
    && (forall k | k in m.kv :: PairFits(Pair(k, m.kv[k])))
    && (forall i | 0 <= i < |m.history| :: m.history[i].ordinal == i + 1)
    && (forall id :: id in m.seen <==> exists i :: 0 <= i < |m.history| && m.history[i].id == id)
  }

  /** THE COUNTERS ARE EXACT, and within bounds, on every reachable machine; its history is what it was fed. */
  lemma {:induction false} FedIsCounted(H: Hashes, commands: seq<Bytes>)
    requires Fed(H, commands).Some?
    ensures Counted(Fed(H, commands).value, commands)
  {
    hide Counted, DecodeCommand, ApplyCanonical, ValidCommand, BytesAfter, Size;
    if commands == [] {
      NewIsCounted(H);
    } else {
      var front, last := commands[..|commands| - 1], commands[|commands| - 1];
      FedIsCounted(H, front);
      var m, m1 := Fed(H, front).value, Fed(H, commands).value;
      var c := DecodeCommand(last).value;
      DecodedIsValid(last);
      CountsSize(m, front);
      SizeAfter(m, c);
      CountedStep(H, m, front, last, c, m1);
      assert commands == front + [last];
    }
  }

  lemma NewIsCounted(H: Hashes)
    ensures Counted(New(H), [])
  {
  }

  lemma CountsSize(m: State, commands: seq<Bytes>)
    requires Counted(m, commands)
    ensures m.stateBytes == Size(m.kv)
  {
  }

  lemma DecodedIsValid(data: Bytes)
    requires DecodeCommand(data).Ok?
    ensures ValidCommand(DecodeCommand(data).value)
  {
  }

  lemma CountedStep(H: Hashes, m: State, front: seq<Bytes>, data: Bytes, c: Command, m1: State)
    requires Counted(m, front) && ValidCommand(c) && ApplyCanonical(H, m, c, data) == Ok(m1)
    requires BytesAfter(m, c) == Size(KeysAfter(m.kv, c))
    ensures Counted(m1, front + [data])
  {
    hide Size;
    var commands := front + [data];
    assert commands[..|front|] == front;
    assert CommandsOf(m1.history) == commands;
    var block := NextBlock(H, m, c, data);
    forall id
      ensures id in m1.seen <==> exists i :: 0 <= i < |m1.history| && m1.history[i].id == id
    {
      if id == c.id {
        assert m1.history[|m.history|].id == id;
      } else if id in m.seen {
        var i :| 0 <= i < |m.history| && m.history[i].id == id;
        assert m1.history[i].id == id;
      }
    }
  }

  function Lookup(kv: map<Bytes, Bytes>, k: Bytes): Option<Bytes> {
    if k in kv then Some(kv[k]) else None
  }

  /** The state in which one key has this value, or none, and every other key what it had. */
  ghost predicate Becomes(kv: map<Bytes, Bytes>, kv': map<Bytes, Bytes>, key: Bytes, value: Option<Bytes>) {
    forall k :: Lookup(kv', k) == if k == key then value else Lookup(kv, k)
  }

  lemma BecomesOne(kv: map<Bytes, Bytes>, a: map<Bytes, Bytes>, b: map<Bytes, Bytes>, key: Bytes, value: Option<Bytes>)
    requires Becomes(kv, a, key, value) && Becomes(kv, b, key, value)
    ensures a == b
  {
    forall k
      ensures Lookup(a, k) == Lookup(b, k)
    {
    }
    assert forall k :: (k in a <==> Lookup(a, k).Some?) && (k in b <==> Lookup(b, k).Some?);
  }

  /**
   * A COMMAND IS APPLIED exactly if its identity is new and there is room for it, in the history and in
   * the state it leads to.  A put gives its key the value, a deletion takes the key away, and no other
   * key changes.
   */
  lemma AppliesExactly(H: Hashes, m: State, commands: seq<Bytes>, c: Command, data: Bytes, kv': map<Bytes, Bytes>)
    requires Counted(m, commands) && ValidCommand(c)
    requires Becomes(m.kv, kv', c.key, if c.operation == 1 then Some(c.value) else None)
    ensures var r := ApplyCanonical(H, m, c, data);
      var used := exists i :: 0 <= i < |m.history| && m.history[i].id == c.id;
      && (r.Ok? <==> !used && |commands| < 50_000 && TotalLength(commands) + |data| <= 0xC0_0000 && Size(kv') <= 0x80_0000)
      && (r.Ok? ==> r.value.kv == kv' && Counted(r.value, commands + [data]) && r.value.history[|commands|].id == c.id)
      && (r.Err? ==> r.error == if used then DuplicateCommand else TooLarge)
  {
    hide Size;
    SizeAfter(m, c);
    BecomesOne(m.kv, KeysAfter(m.kv, c), kv', c.key, if c.operation == 1 then Some(c.value) else None);
    assert |CommandsOf(m.history)| == |m.history|;
    if ApplyCanonical(H, m, c, data).Ok? {
      CountedStep(H, m, commands, data, c, ApplyCanonical(H, m, c, data).value);
    }
  }

  // ----- checkpoints -----

  datatype Commitment = Commitment(commands: nat, chain: Bytes, state: Bytes)

  function CommitmentOf(H: Hashes, m: State): Commitment {
    Commitment(|m.history|, m.chain, H.state(m.kv))
  }

  datatype Checkpoint = Checkpoint(commitment: Commitment, state: Pairs, history: seq<Block>)

  ghost function CheckpointOf(H: Hashes, m: State): Checkpoint {
    Checkpoint(CommitmentOf(H, m), SortedPairs(m.kv), m.history)
  }

  /** The pairs of a checkpoint: within bounds, strictly ascending, and small enough together. */
  function CheckPairs(pairs: Pairs): Option<CommandError> {
    if pairs == [] then None
    else
      var front, last := pairs[..|pairs| - 1], pairs[|pairs| - 1];
      match CheckPairs(front)
      case Some(e) => Some(e)
      case None =>
        if !PairFits(last) || (front != [] && !Less(front[|front| - 1].key, last.key)) then Some(InvalidCheckpoint)
        else if |last.key| + |last.value| > MAX_STATE_BYTES - SumOf(front) then Some(TooLarge)
        else None
  }

  /** Replays the blocks from the beginning; each must come out as recorded. */
  function ReplayBlocks(H: Hashes, history: seq<Block>): Option<State> {
    if history == [] then Some(New(H))
    else
      match ReplayBlocks(H, history[..|history| - 1])
      case None => None
      case Some(m) =>
        match ApplyEncoded(H, m, history[|history| - 1].command)
        case Err(_) => None
        case Ok(m1) => if m1.history[|m1.history| - 1] == history[|history| - 1] then Some(m1) else None
  }

  ghost function Restore(H: Hashes, cp: Checkpoint): Result<State> {
    if cp.commitment.commands != |cp.history| then Err(InvalidCheckpoint)
    else if |cp.history| > MAX_COMMANDS then Err(TooLarge)
    else
      match CheckPairs(cp.state)
      case Some(e) => Err(e)
      case None =>
        if TotalLength(CommandsOf(cp.history)) > MAX_HISTORY_BYTES then Err(TooLarge)
        else
          match ReplayBlocks(H, cp.history)
          case None => Err(InvalidCheckpoint)
          case Some(m) =>
            if CommitmentOf(H, m) != cp.commitment || SortedPairs(m.kv) != cp.state then Err(InvalidCheckpoint)
            else Ok(m)
  }

  lemma {:induction false} ReplayedIsFed(H: Hashes, history: seq<Block>)
    ensures ReplayBlocks(H, history).Some? ==>
      Fed(H, CommandsOf(history)) == ReplayBlocks(H, history) && ReplayBlocks(H, history).value.history == history
  {
    if history != [] {
      var front := history[..|history| - 1];
      ReplayedIsFed(H, front);
      assert CommandsOf(history)[..|history| - 1] == CommandsOf(front);
      assert history == front + [history[|history| - 1]];
    }
  }

  lemma {:induction false} FedIsReplayed(H: Hashes, commands: seq<Bytes>)
    requires Fed(H, commands).Some?
    ensures ReplayBlocks(H, Fed(H, commands).value.history) == Fed(H, commands)
  {
    if commands != [] {
      FedIsReplayed(H, commands[..|commands| - 1]);
      var m, m1 := Fed(H, commands[..|commands| - 1]).value, Fed(H, commands).value;
      assert m1.history[..|m1.history| - 1] == m.history;
    }
  }

  lemma {:induction false} GoodPairsPass(pairs: Pairs)
    requires Ascending(pairs) && SumOf(pairs) <= MAX_STATE_BYTES && forall i | 0 <= i < |pairs| :: PairFits(pairs[i])
    ensures CheckPairs(pairs).None?
  {
    if pairs != [] {
      GoodPairsPass(pairs[..|pairs| - 1]);
    }
  }

  /**
   * RESTORING, exactly: what restores is the checkpoint of a machine that some commands lead to,
   * and it restores that machine, the same in every field.
   */
  lemma RestoreExactly(H: Hashes, cp: Checkpoint, m: State)
    ensures Restore(H, cp) == Ok(m) <==> Fed(H, CommandsOf(m.history)) == Some(m) && cp == CheckpointOf(H, m)
  {
    hide CheckPairs, Size;
    ReplayedIsFed(H, cp.history);
    if Fed(H, CommandsOf(m.history)) == Some(m) && cp == CheckpointOf(H, m) {
      FedIsReplayed(H, CommandsOf(m.history));
      FedIsCounted(H, CommandsOf(m.history));
      SumIsSize(cp.state);
      forall i | 0 <= i < |cp.state|
        ensures PairFits(cp.state[i])
      {
        MapOfAt(cp.state, i);
      }
      GoodPairsPass(cp.state);
    }
  }

  lemma {:induction false} CheckFails(pairs: Pairs, i: nat)
    requires i <= |pairs| && CheckPairs(pairs[..i]).Some?
    ensures CheckPairs(pairs) == CheckPairs(pairs[..i])
    decreases |pairs|
  {
    if i < |pairs| {
      assert pairs[..|pairs| - 1][..i] == pairs[..i];
      CheckFails(pairs[..|pairs| - 1], i);
    } else {
      assert pairs[..i] == pairs;
    }
  }

  lemma {:induction false} LengthGrows(history: seq<Block>, i: nat)
    requires i <= |history|
    ensures TotalLength(CommandsOf(history[..i])) <= TotalLength(CommandsOf(history))
    decreases |history|
  {
    if i < |history| {
      var front := history[..|history| - 1];
      assert front[..i] == history[..i] && CommandsOf(history)[..|front|] == CommandsOf(front);
      LengthGrows(front, i);
    } else {
      assert history[..i] == history;
    }
  }

  lemma {:induction false} ReplayFails(H: Hashes, history: seq<Block>, i: nat)
    requires i <= |history| && ReplayBlocks(H, history[..i]).None?
    ensures ReplayBlocks(H, history).None?
    decreases |history|
  {
    if i < |history| {
      assert history[..|history| - 1][..i] == history[..i];
      ReplayFails(H, history[..|history| - 1], i);
    } else {
      assert history[..i] == history;
    }
  }

  method CheckAllPairs(pairs: Pairs) returns (error: Option<CommandError>)
    ensures error == CheckPairs(pairs)
  {
    hide PairFits, Less;
    var stateBytes := 0;
    for i := 0 to |pairs|
      invariant CheckPairs(pairs[..i]).None? && stateBytes == SumOf(pairs[..i])
    {
      assert pairs[..i + 1][..i] == pairs[..i];
      var pair := pairs[i];
      if !PairFits(pair) || (i > 0 && !Less(pairs[i - 1].key, pair.key)) {
        CheckFails(pairs, i + 1);
        return Some(InvalidCheckpoint);
      }
      if |pair.key| + |pair.value| > MAX_STATE_BYTES - stateBytes {
        CheckFails(pairs, i + 1);
        return Some(TooLarge);
      }
      stateBytes := stateBytes + |pair.key| + |pair.value|;
    }
    assert pairs[..|pairs|] == pairs;
    error := None;
  }

  method HistoryFits(history: seq<Block>) returns (fits: bool)
    ensures fits == (TotalLength(CommandsOf(history)) <= MAX_HISTORY_BYTES)
  {
    var historyBytes := 0;
    for i := 0 to |history|
      invariant historyBytes == TotalLength(CommandsOf(history[..i])) <= MAX_HISTORY_BYTES
    {
      assert CommandsOf(history[..i + 1])[..i] == CommandsOf(history[..i]);
      if |history[i].command| > MAX_HISTORY_BYTES - historyBytes {
        LengthGrows(history, i + 1);
        return false;
      }
      historyBytes := historyBytes + |history[i].command|;
    }
    assert history[..|history|] == history;
    fits := true;
  }

  /** A new machine, fed with the blocks in order. */
  method ReplayHistory(H: Hashes, history: seq<Block>) returns (r: Option<Machine>)
    ensures match ReplayBlocks(H, history)
            case None => r.None?
            case Some(m) => r.Some? && fresh(r.value) && r.value.hashes == H && r.value.Value() == m
  {
    hide ApplyEncoded;
    var machine := new Machine(H);
    for i := 0 to |history|
      invariant fresh(machine) && machine.hashes == H
      invariant ReplayBlocks(H, history[..i]) == Some(machine.Value())
    {
      assert history[..i + 1][..i] == history[..i];
      var block := machine.ApplyData(history[i].command);
      if block.Err? || block.value != history[i] {
        ReplayFails(H, history, i + 1);
        return None;
      }
    }
    assert history[..|history|] == history;
    r := Some(machine);
  }

  method RestoreCheckpoint(H: Hashes, cp: Checkpoint) returns (r: Result<Machine>)
    ensures match Restore(H, cp)
            case Err(e) => r == Err(e)
            case Ok(m) => r.Ok? && fresh(r.value) && r.value.hashes == H && r.value.Value() == m
  {
    hide CheckPairs, ReplayBlocks, TotalLength, SortedPairs, Canonical;
    if cp.commitment.commands != |cp.history| { return Err(InvalidCheckpoint); }
    if |cp.history| > MAX_COMMANDS { return Err(TooLarge); }
    var error := CheckAllPairs(cp.state);
    if error.Some? { return Err(error.value); }
    var fits := HistoryFits(cp.history);
    if !fits { return Err(TooLarge); }
    var machine := ReplayHistory(H, cp.history);
    if machine.None? { return Err(InvalidCheckpoint); }
    var m := machine.value;
    var pairs := m.Sorted();
    CanonicalUnique(pairs, SortedPairs(m.kv), m.kv);
    if CommitmentOf(H, m.Value()) != cp.commitment || pairs != cp.state { return Err(InvalidCheckpoint); }
    r := Ok(m);
  }

  /** A reachable machine comes back from its checkpoint, and so behaves alike on every later command. */
  lemma CheckpointRoundTrip(H: Hashes, commands: seq<Bytes>)
    requires Fed(H, commands).Some?
    ensures Restore(H, CheckpointOf(H, Fed(H, commands).value)) == Ok(Fed(H, commands).value)
  {
    FedIsCounted(H, commands);
    RestoreExactly(H, CheckpointOf(H, Fed(H, commands).value), Fed(H, commands).value);
  }

  // ----- replaying entries -----

  /** The machine and the new blocks that entries lead to, from a machine. */
  function ReplayOn(H: Hashes, m: State, entries: seq<RaftTypes.Entry>): Result<(State, seq<Block>)> {
    if entries == [] then Ok((m, []))
    else
      match ReplayOn(H, m, entries[..|entries| - 1])
      case Err(e) => Err(e)
      case Ok((m1, blocks)) =>
        var entry := entries[|entries| - 1];
        if !entry.kind.Command? then Ok((m1, blocks))
        else
          match ApplyEncoded(H, m1, entry.data)
          case Err(e) => Err(e)
          case Ok(m2) => Ok((m2, blocks + [m2.history[|m2.history| - 1]]))
  }

  ghost function ReplayEntries(H: Hashes, base: Option<Checkpoint>, entries: seq<RaftTypes.Entry>): Result<(Commitment, seq<Block>)> {
    match (if base.None? then Ok(New(H)) else Restore(H, base.value))
    case Err(e) => Err(e)
    case Ok(m) =>
      match ReplayOn(H, m, entries)
      case Err(e) => Err(e)
      case Ok((m1, blocks)) => Ok((CommitmentOf(H, m1), blocks))
  }

  lemma {:induction false} ReplayConcat(H: Hashes, m: State, a: seq<RaftTypes.Entry>, b: seq<RaftTypes.Entry>)
    ensures ReplayOn(H, m, a + b) ==
      match ReplayOn(H, m, a)
      case Err(e) => Err(e)
      case Ok((m1, blocks)) =>
        match ReplayOn(H, m1, b)
        case Err(e) => Err(e)
        case Ok((m2, more)) => Ok((m2, blocks + more))
  {
    hide ApplyEncoded;
    if b == [] {
      assert a + b == a;
      forall blocks: seq<Block>
        ensures blocks + [] == blocks
      {
      }
    } else {
      ReplayConcat(H, m, a, b[..|b| - 1]);
      assert (a + b)[..|a + b| - 1] == a + b[..|b| - 1];
      assert (a + b)[|a + b| - 1] == b[|b| - 1];
      var start := ReplayOn(H, m, a);
      if start.Ok? {
        var rest := ReplayOn(H, start.value.0, b[..|b| - 1]);
        if rest.Ok? {
          var m1, last := rest.value.0, b[|b| - 1];
          ApplyAddsBlock(H, m1, last.data);
          if last.kind.Command? && ApplyEncoded(H, m1, last.data).Ok? {
            var block := ApplyEncoded(H, m1, last.data).value.history[|m1.history|];
            assert (start.value.1 + rest.value.1) + [block] == start.value.1 + (rest.value.1 + [block]);
          }
        }
      }
    }
  }

  lemma ApplyAddsBlock(H: Hashes, m: State, data: Bytes)
    ensures ApplyEncoded(H, m, data).Ok? ==> |ApplyEncoded(H, m, data).value.history| == |m.history| + 1
  {
  }

  lemma {:induction false} ReplayedIsReachable(H: Hashes, m: State, entries: seq<RaftTypes.Entry>)
    requires Fed(H, CommandsOf(m.history)) == Some(m) && ReplayOn(H, m, entries).Ok?
    ensures var m1 := ReplayOn(H, m, entries).value.0; Fed(H, CommandsOf(m1.history)) == Some(m1)
  {
    if entries != [] {
      ReplayedIsReachable(H, m, entries[..|entries| - 1]);
      var m1 := ReplayOn(H, m, entries[..|entries| - 1]).value.0;
      FedStep(H, m1, entries[|entries| - 1].data);
    }
  }

  lemma FedStep(H: Hashes, m: State, data: Bytes)
    requires Fed(H, CommandsOf(m.history)) == Some(m)
    ensures ApplyEncoded(H, m, data).Ok? ==>
      var m1 := ApplyEncoded(H, m, data).value; Fed(H, CommandsOf(m1.history)) == Some(m1)
  {
    if ApplyEncoded(H, m, data).Ok? {
      var m1 := ApplyEncoded(H, m, data).value;
      assert CommandsOf(m1.history)[..|m.history|] == CommandsOf(m.history);
    }
  }

  /** The commands in a log, in order. */
  function Payloads(entries: seq<RaftTypes.Entry>): seq<Bytes> {
    if entries == [] then []
    else Payloads(entries[..|entries| - 1]) + if entries[|entries| - 1].kind.Command? then [entries[|entries| - 1].data] else []
  }

  lemma ReplayStep(H: Hashes, m: State, entries: seq<RaftTypes.Entry>, entry: RaftTypes.Entry, m1: State, blocks: seq<Block>)
    requires ReplayOn(H, m, entries) == Ok((m1, blocks))
    ensures !entry.kind.Command? ==> ReplayOn(H, m, entries + [entry]) == Ok((m1, blocks))
    ensures entry.kind.Command? ==>
      var after := ApplyEncoded(H, m1, entry.data);
      && (ReplayOn(H, m, entries + [entry]).Ok? <==> after.Ok?)
      && (after.Ok? ==>
           && |after.value.history| == |m1.history| + 1
           && ReplayOn(H, m, entries + [entry]) == Ok((after.value, blocks + [after.value.history[|m1.history|]])))
  {
    hide ApplyEncoded;
    assert (entries + [entry])[..|entries|] == entries;
    ApplyAddsBlock(H, m1, entry.data);
  }

  lemma FedOneMore(H: Hashes, commands: seq<Bytes>, data: Bytes)
    ensures Fed(H, commands + [data]) ==
      if Fed(H, commands).None? then None else ToOption(ApplyEncoded(H, Fed(H, commands).value, data))
  {
    hide ApplyEncoded;
    assert (commands + [data])[..|commands|] == commands;
  }

  lemma {:induction false} ReplayFeeds(H: Hashes, entries: seq<RaftTypes.Entry>)
    ensures ReplayOn(H, New(H), entries).Ok? <==> Fed(H, Payloads(entries)).Some?
    ensures ReplayOn(H, New(H), entries).Ok? ==>
      var m := Fed(H, Payloads(entries)).value; ReplayOn(H, New(H), entries).value == (m, m.history)
  {
    hide ApplyEncoded, Fed;
    if entries == [] {
      assert Fed(H, []) == Some(New(H)) by { FedNothing(H); }
    } else {
      var front, last := entries[..|entries| - 1], entries[|entries| - 1];
      assert entries == front + [last];
      ReplayFeeds(H, front);
      FedOneMore(H, Payloads(front), last.data);
      if ReplayOn(H, New(H), front).Ok? {
        var m := Fed(H, Payloads(front)).value;
        ReplayStep(H, New(H), front, last, m, m.history);
        HistoryGrows(H, m, last.data);
      }
      assert Payloads(front) + [] == Payloads(front);
    }
  }

  lemma FedNothing(H: Hashes)
    ensures Fed(H, []) == Some(New(H))
  {
  }

  lemma HistoryGrows(H: Hashes, m: State, data: Bytes)
    ensures ApplyEncoded(H, m, data).Ok? ==>
      var history := ApplyEncoded(H, m, data).value.history; history == m.history + [history[|history| - 1]]
  {
  }

  /**
   * REPLAY, exactly: a log is replayed if and only if its commands, and nothing else in it, can be fed
   * to a machine one after another; it comes to that machine's commitment and blocks.
   */
  lemma ReplaysExactly(H: Hashes, entries: seq<RaftTypes.Entry>)
    ensures var r, fed := ReplayEntries(H, None, entries), Fed(H, Payloads(entries));
      && (r.Ok? <==> fed.Some?)
      && (r.Ok? ==> r.value == (CommitmentOf(H, fed.value), fed.value.history))
  {
    ReplayFeeds(H, entries);
  }

  /** REPLAY COMPOSES: a log replayed whole, or its rest replayed from a checkpoint of its front, comes to the same. */
  lemma ReplayComposes(H: Hashes, a: seq<RaftTypes.Entry>, b: seq<RaftTypes.Entry>, m: State, blocks: seq<Block>)
    requires ReplayOn(H, New(H), a) == Ok((m, blocks))
    ensures ReplayEntries(H, None, a + b) ==
      match ReplayEntries(H, Some(CheckpointOf(H, m)), b)
      case Err(e) => Err(e)
      case Ok((c, more)) => Ok((c, blocks + more))
  {
    ReplayConcat(H, New(H), a, b);
    assert CommandsOf(New(H).history) == [];
    ReplayedIsReachable(H, New(H), a);
    RestoreExactly(H, CheckpointOf(H, m), m);
  }

  // ----- as the cluster's application -----

  /** Any encoding of checkpoints as text that can be read back. */
  datatype Json = Json(write: Checkpoint -> Bytes, read: Bytes -> Option<Checkpoint>)

  ghost predicate ReadsBack(json: Json) {
    forall cp {:trigger json.write(cp)} :: json.read(json.write(cp)) == Some(cp) && |json.write(cp)| > 0
  }

  ghost function EncodeCheckpoint(H: Hashes, json: Json, cp: Checkpoint): Result<Bytes> {
    match Restore(H, cp)
    case Err(e) => Err(e)
    case Ok(_) => if |json.write(cp)| > MAX_CHECKPOINT_BYTES then Err(TooLarge) else Ok(json.write(cp))
  }

  ghost function DecodeCheckpoint(H: Hashes, json: Json, data: Bytes): Result<Checkpoint> {
    if |data| == 0 || |data| > MAX_CHECKPOINT_BYTES then Err(TooLarge)
    else
      match json.read(data)
      case None => Err(InvalidCheckpoint)
      case Some(cp) =>
        if json.write(cp) != data then Err(InvalidCheckpoint)
        else
          match Restore(H, cp)
          case Err(e) => Err(e)
          case Ok(_) => Ok(cp)
  }

  function ToOption<T>(r: Result<T>): Option<T> {
    match r case Ok(v) => Some(v) case Err(_) => None
  }

  ghost function KeyValue(H: Hashes, json: Json): App<State> {
    App(New(H),
        (m: State, data: Bytes) => ToOption(ApplyEncoded(H, m, data)),
        (m: State) => ToOption(EncodeCheckpoint(H, json, CheckpointOf(H, m))),
        (data: Bytes) => (match DecodeCheckpoint(H, json, data) case Err(_) => None case Ok(cp) => ToOption(Restore(H, cp))),
        (a: State, b: State) => CommitmentOf(H, a) == CommitmentOf(H, b))
  }

  lemma {:induction false} MachineIsReachable(H: Hashes, json: Json, log: seq<RaftTypes.Entry>)
    requires MachineAfter(KeyValue(H, json), log).Some?
    ensures var m := MachineAfter(KeyValue(H, json), log).value; Fed(H, CommandsOf(m.history)) == Some(m)
  {
    if log == [] {
      assert CommandsOf(New(H).history) == [];
    } else {
      MachineIsReachable(H, json, log[..|log| - 1]);
      FedStep(H, MachineAfter(KeyValue(H, json), log[..|log| - 1]).value, log[|log| - 1].data);
    }
  }

  /** The key-value machine is a faithful application: its snapshots restore it. */
  lemma KeyValueIsFaithful(H: Hashes, json: Json)
    requires ReadsBack(json)
    ensures Faithful(KeyValue(H, json))
  {
    var app := KeyValue(H, json);
    forall log | MachineAfter(app, log).Some?
      ensures var m := MachineAfter(app, log).value;
        app.agree(m, m) && (app.save(m).Some? ==> app.restore(app.save(m).value) == Some(m))
    {
      MachineIsReachable(H, json, log);
      var m := MachineAfter(app, log).value;
      RestoreExactly(H, CheckpointOf(H, m), m);
    }
  }
}
