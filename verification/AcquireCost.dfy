/**
 * Directory acquisition: accepted path spellings and the closed-form cost ceiling that is
 * computed before the run.
 */
module AcquireCost {
  import opened Machine
  import opened Wrappers

  type Bytes = seq<Byte>

  // ---------------------------------------------------------------- path spelling

  /** Splits at every separator, keeping empty parts. */
  function Split(s: Bytes): (parts: seq<Bytes>)
    ensures parts != []
  {
    if s == [] then [[]]
    else
      var rest := Split(s[1..]);
      if s[0] == SLASH then [[]] + rest else [[s[0]] + rest[0]] + rest[1..]
  }

  function Join(parts: seq<Bytes>): Bytes
    requires parts != []
    decreases |parts|
  {
    if |parts| == 1 then parts[0] else parts[0] + [SLASH] + Join(parts[1..])
  }

  lemma JoinCons(first: Bytes, rest: seq<Bytes>)
    requires rest != []
    ensures Join([first] + rest) == first + [SLASH] + Join(rest)
  {
    assert ([first] + rest)[1..] == rest;
  }

  lemma JoinOne(first: Bytes)
    ensures Join([first]) == first
  {
  }

  lemma Regroup(a: Bytes, b: Bytes, c: Bytes, d: Bytes)
    ensures (a + b) + c + d == a + (b + c + d)
  {
  }

  /** A byte put before the first part comes first. */
  lemma JoinGrow(b: Byte, parts: seq<Bytes>)
    requires parts != []
    ensures Join([[b] + parts[0]] + parts[1..]) == [b] + Join(parts)
  {
    hide Join;
    var first, rest := parts[0], parts[1..];
    assert parts == [first] + rest;
    if rest == [] {
      assert parts == [first] && [[b] + first] + rest == [[b] + first];
      JoinOne(first);
      JoinOne([b] + first);
    } else {
      JoinCons([b] + first, rest);
      JoinCons(first, rest);
      Regroup([b], first, [SLASH], Join(rest));
    }
  }

  lemma SplitCons(b: Byte, s: Bytes)
    ensures var rest := Split(s);
            Split([b] + s) == if b == SLASH then [[]] + rest else [[b] + rest[0]] + rest[1..]
  {
    assert ([b] + s)[1..] == s;
  }

  /** Joining undoes splitting. */
  lemma {:induction false} JoinSplit(s: Bytes)
    ensures Join(Split(s)) == s
  {
    if s != [] {
      var b, rest := s[0], Split(s[1..]);
      JoinSplit(s[1..]);
      SplitCons(b, s[1..]);
      hide Split, Join;
      assert s == [b] + s[1..];
      if b == SLASH {
        JoinCons([], rest);
        assert [] + [SLASH] + Join(rest) == [SLASH] + Join(rest);
      } else {
        JoinGrow(b, rest);
      }
    }
  }

  /** No part contains a separator. */
  lemma {:induction false} PartsWithoutSeparator(s: Bytes)
    ensures forall p :: p in Split(s) ==> SLASH !in p
  {
    if s != [] {
      var b, rest := s[0], Split(s[1..]);
      PartsWithoutSeparator(s[1..]);
      SplitCons(b, s[1..]);
      hide Split;
      assert s == [b] + s[1..] && rest[0] in rest;
      assert forall p :: p in rest[1..] ==> p in rest;
    }
  }

  lemma SplitJoinCons(rest: seq<Bytes>)
    requires rest != [] && Split(Join(rest)) == rest
    ensures Split(Join([[]] + rest)) == [[]] + rest
  {
    hide Split, Join;
    JoinCons([], rest);
    assert [] + [SLASH] + Join(rest) == [SLASH] + Join(rest);
    SplitCons(SLASH, Join(rest));
  }

  lemma SplitJoinGrow(b: Byte, parts: seq<Bytes>)
    requires b != SLASH && parts != [] && Split(Join(parts)) == parts
    ensures var grown := [[b] + parts[0]] + parts[1..];
            Split(Join(grown)) == grown
  {
    hide Split, Join;
    JoinGrow(b, parts);
    SplitCons(b, Join(parts));
  }

  /** Splitting undoes joining parts without separators. */
  lemma {:induction false} SplitJoin(parts: seq<Bytes>)
    requires parts != [] && forall p :: p in parts ==> SLASH !in p
    ensures Split(Join(parts)) == parts
    decreases |parts|, |parts[0]|
  {
    hide Split, Join;
    var first, rest := parts[0], parts[1..];
    assert first in parts && parts == [first] + rest;
    if first != [] {
      var b, shorter := first[0], [first[1..]] + rest;
      assert b in first;
      forall p | p in shorter ensures SLASH !in p {
        assert p in parts || forall c :: c in p ==> c in first;
      }
      SplitJoin(shorter);
      SplitJoinGrow(b, shorter);
      assert [b] + first[1..] == first && shorter[1..] == rest;
    } else if rest != [] {
      assert forall p :: p in rest ==> p in parts;
      SplitJoin(rest);
      SplitJoinCons(rest);
    } else {
      SplitNothing();
      assert parts == [[]];
    }
  }

  lemma SplitNothing()
    ensures Split(Join([[]])) == [[]]
  {
  }

  predicate Normal(part: Bytes) {
    part != [] && part != [DOT] && part != [DOT, DOT]
  }

  /** The components of an absolute path; the root has none. */
  function Components(path: Bytes): seq<Bytes>
    requires path != []
  {
    if path == [SLASH] then [] else Split(path[1..])
  }

  /** An accepted spelling: absolute, without NUL, every component normal. */
  ghost predicate Normalized(path: Bytes) {
    path != [] && path[0] == SLASH && 0 !in path && forall p :: p in Components(path) ==> Normal(p)
  }

  /** An accepted spelling is the rendering of its components, which are normal names. */
  lemma NormalizedIsRendered(path: Bytes)
    requires Normalized(path)
    ensures path == [SLASH] + (if Components(path) == [] then [] else Join(Components(path)))
    ensures forall p :: p in Components(path) ==> |p| + 1 <= |path| && SLASH !in p && 0 !in p
  {
    if path != [SLASH] {
      JoinSplit(path[1..]);
      PartsWithoutSeparator(path[1..]);
      assert path == [SLASH] + path[1..];
      forall p | p in Components(path) ensures |p| + 1 <= |path| && 0 !in p {
        PartFits(Components(path), p);
      }
    }
  }

  lemma {:induction false} JoinedBytes(parts: seq<Bytes>, b: Byte)
    requires parts != [] && b != SLASH && forall p :: p in parts ==> b !in p
    ensures b !in Join(parts)
    decreases |parts|
  {
    assert parts[0] in parts;
    if |parts| > 1 {
      assert forall p :: p in parts[1..] ==> p in parts;
      JoinedBytes(parts[1..], b);
    }
  }

  /** The other direction: rendering normal names gives an accepted spelling of those names. */
  lemma RenderedIsNormalized(names: seq<Bytes>)
    requires forall p :: p in names ==> Normal(p) && SLASH !in p && 0 !in p
    ensures var path := [SLASH] + (if names == [] then [] else Join(names));
            Normalized(path) && Components(path) == names
  {
    if names != [] {
      var path: Bytes := [SLASH] + Join(names);
      SplitJoin(names);
      JoinedBytes(names, 0);
      assert path[1..] == Join(names);
      assert names[0] in names && Join(names) != [];
    }
  }

  lemma {:induction false} PartFits(parts: seq<Bytes>, p: Bytes)
    requires p in parts
    ensures |p| <= |Join(parts)| && |parts| <= |Join(parts)| + 1
    ensures forall b :: b in p ==> b in Join(parts)
    decreases |parts|
  {
    if |parts| > 1 {
      assert parts == [parts[0]] + parts[1..];
      PartFits(parts[1..], if p in parts[1..] then p else parts[1]);
    }
  }

  datatype AcquireLimits = AcquireLimits(maxPathBytes: Size, maxComponents: Size, maxCreatedDirectories: Size)

  datatype SpellingError = TooLarge | NotNormalized

  /** The spellings that acquisition accepts under its limits. */
  ghost predicate Accepts(path: Bytes, limits: AcquireLimits) {
    && 0 < limits.maxPathBytes && |path| <= limits.maxPathBytes
    && Normalized(path) && |Components(path)| <= limits.maxComponents
  }

  /** Counts the components of an accepted spelling, or says why it is refused. */
  method Spelling(path: Bytes, limits: AcquireLimits) returns (r: Result<Size, SpellingError>)
    ensures r.Ok? <==> Accepts(path, limits)
    ensures r.Ok? ==> r.value == |Components(path)|
    ensures r == Err(NotNormalized) ==> !Normalized(path)
    ensures r == Err(TooLarge) ==>
              limits.maxPathBytes == 0 || |path| > limits.maxPathBytes
              || (path != [] && |Components(path)| > limits.maxComponents)
  {
    if limits.maxPathBytes == 0 || |path| > limits.maxPathBytes {
      return Err(TooLarge);
    }
    if path == [] || path[0] != SLASH || 0 in path {
      return Err(NotNormalized);
    }
    if path == [SLASH] {
      return Ok(0);
    }
    var parts := Split(path[1..]);
    JoinSplit(path[1..]);
    PartFits(parts, parts[0]);
    var n: Size := 0;
    for i := 0 to |parts|
      invariant n == i <= limits.maxComponents
      invariant forall k :: 0 <= k < i ==> Normal(parts[k])
    {
      if !Normal(parts[i]) {
        return Err(NotNormalized);
      }
      n := n + 1;
      if n > limits.maxComponents {
        return Err(TooLarge);
      }
    }
    return Ok(n);
  }

  // ---------------------------------------------------------------- cost ceiling

  /** The bytes of ".shard-stream.directory.lock". */
  const LOCK_NAME: Bytes := [46, 115, 104, 97, 114, 100, 45, 115, 116, 114, 101, 97, 109, 46, 100, 105, 114, 101, 99, 116, 111, 114, 121, 46, 108, 111, 99, 107]
  const LOCK_BYTES: Size := 28

  lemma LockNameFits()
    ensures |LOCK_NAME| == LOCK_BYTES
  {
  }

  /** Sizes of the attempt's own values, which the model leaves open. */
  datatype Sizes = Sizes(observation: Size, fileSlot: Size, word: Size, error: Size, ownership: Size, header: Size)

  datatype Cost = Cost(
    declared: Size, entries: Size, strings: Size, work: Size, calls: Size, files: Size, components: Size)

  /** Slots of the three reserved vectors, in bytes. */
  function ArrayBytes(n: nat, z: Sizes): nat {
    (12 * n + 40) * z.observation + ((2 * n + 3) * z.fileSlot + (n + 1) * z.word)
  }

  function FixedBytes(z: Sizes): nat {
    z.error + z.ownership + z.header
  }

  function CheckedArrays(calls: Size, files: Size, n1: Size, z: Sizes): (r: Option<Size>)
    ensures r.Some? ==> r.value == calls * z.observation + (files * z.fileSlot + n1 * z.word)
  {
    var a0 :- CheckedMul(calls, z.observation);
    var a1 :- CheckedMul(files, z.fileSlot);
    var a2 :- CheckedMul(n1, z.word);
    var a3 :- CheckedAdd(a1, a2);
    CheckedAdd(a0, a3)
  }

  function CheckedStrings(bytes: Size, calls: Size): (r: Option<Size>)
    ensures r.Some? ==> r.value == (bytes + 1) * (calls + 2) + calls * (LOCK_BYTES + 1)
  {
    var b1 :- CheckedAdd(bytes, 1);
    var c2 :- CheckedAdd(calls, 2);
    var s0 :- CheckedMul(b1, c2);
    var s1 :- CheckedMul(calls, LOCK_BYTES + 1);
    CheckedAdd(s0, s1)
  }

  function CheckedDeclared(arrays: Size, strings: Size, z: Sizes): (r: Option<Size>)
    ensures r.Some? ==> r.value == FixedBytes(z) + 2 * arrays + strings
  {
    var x0 :- CheckedAdd(z.ownership, z.header);
    var fixed :- CheckedAdd(z.error, x0);
    var d0 :- CheckedMul(arrays, 2);
    var d1 :- CheckedAdd(d0, strings);
    CheckedAdd(fixed, d1)
  }

  function CheckedEntries(calls: Size, files: Size, n1: Size): (r: Option<Size>)
    ensures r.Some? ==> r.value == 5 * calls + files + n1 + 32
  {
    var e0 :- CheckedAdd(files, n1);
    var e1 :- CheckedAdd(calls, e0);
    var e2 :- CheckedMul(calls, 4);
    var e3 :- CheckedAdd(e2, 32);
    CheckedAdd(e1, e3)
  }

  function CheckedWork(declared: Size, calls: Size, bytes: Size, entries: Size): (r: Option<Size>)
    ensures r.Some? ==> r.value == 8 * declared + calls * (4 * bytes + 4096) + entries
  {
    var w0 :- CheckedMul(declared, 8);
    var w1 :- CheckedMul(bytes, 4);
    var w2 :- CheckedAdd(w1, 4096);
    var w3 :- CheckedMul(calls, w2);
    var w4 :- CheckedAdd(w3, entries);
    CheckedAdd(w0, w4)
  }

  /** The ceiling for `n` components; any overflow refuses the acquisition. */
  function CostOf(n: Size, bytes: Size, z: Sizes): (r: Option<Cost>)
    ensures r.Some? ==> r.value.calls == 12 * n + 40 && r.value.files == 2 * n + 3 && r.value.components == n
  {
    var c0 :- CheckedMul(n, 12);
    var calls :- CheckedAdd(c0, 40);
    var n1 :- CheckedAdd(n, 1);
    var f0 :- CheckedMul(n1, 2);
    var files :- CheckedAdd(f0, 1);
    var arrays :- CheckedArrays(calls, files, n1, z);
    var strings :- CheckedStrings(bytes, calls);
    var declared :- CheckedDeclared(arrays, strings, z);
    var entries :- CheckedEntries(calls, files, n1);
    var work :- CheckedWork(declared, calls, bytes, entries);
    Some(Cost(declared, entries, strings, work, calls, files, n))
  }

  /** The ceiling in closed form. */
  lemma CostClosedForm(n: Size, bytes: Size, z: Sizes)
    ensures var r := CostOf(n, bytes, z);
            r.Some? ==>
              && r.value.strings == (bytes + 1) * (r.value.calls + 2) + r.value.calls * (LOCK_BYTES + 1)
              && r.value.declared == FixedBytes(z) + 2 * ArrayBytes(n, z) + r.value.strings
              && r.value.entries == 5 * r.value.calls + r.value.files + n + 33
              && r.value.work == 8 * r.value.declared + r.value.calls * (4 * bytes + 4096) + r.value.entries
  {
    hide CheckedArrays, CheckedStrings, CheckedDeclared, CheckedEntries, CheckedWork;
  }

  // ---------------------------------------------------------------- the ledger

  datatype Usage = Usage(calls: int, declared: int, strings: int, entries: int, work: int)

  function Add(u: Usage, calls: int, bytes: int, strings: int, entries: int, work: int): Usage {
    Usage(u.calls + calls, u.declared + bytes, u.strings + strings, u.entries + entries, u.work + (work + entries))
  }

  predicate Under(u: Usage, c: Cost) {
    && u.calls <= c.calls && u.declared <= c.declared && u.entries <= c.entries
    && u.strings <= c.strings && u.work <= c.work
  }

  /** One prepaid call names at most the whole path or the lock file. */
  function CallBytes(bytes: nat): nat {
    bytes + LOCK_BYTES + 1
  }

  function CallWork(bytes: nat): nat {
    4 * (bytes + LOCK_BYTES) + 4096
  }

  function Times(a: nat, b: nat): (r: nat)
    ensures a == 0 ==> r == 0
  {
    MulSign(a, b);
    a * b
  }

  /** Scratch bytes of `calls` calls that name `name` bytes each, with a terminator. */
  function Scratch(calls: nat, name: nat): nat {
    Times(calls, name + 1)
  }

  function ScanWork(calls: nat, name: nat): nat {
    Times(calls, 4 * name + 4096)
  }

  /** Everything that is paid once, whatever the calls. */
  function SetupDeclared(n: nat, bytes: nat, z: Sizes): nat {
    FixedBytes(z) + bytes + ArrayBytes(n, z)
  }

  function SetupEntries(n: nat): nat {
    16 + 1 + (12 * n + 40) + (2 * n + 3) + (n + 1)
  }

  function SetupWork(n: nat, bytes: nat, z: Sizes): nat {
    FixedBytes(z) + 4 * ((n + 1) * bytes) + 2 * bytes + ArrayBytes(n, z)
  }

  /**
   * The ledger invariant: usage grows by a bounded amount per prepaid call, on top of the
   * setup of which `due` is still to be paid.
   */
  ghost predicate Ledger(u: Usage, due: Usage, n: nat, bytes: nat, z: Sizes) {
    && 0 <= u.calls && 0 <= u.declared && 0 <= u.strings && 0 <= u.entries && 0 <= u.work
    && 0 <= due.declared && 0 <= due.strings && 0 <= due.entries && 0 <= due.work
    && u.declared + due.declared <= SetupDeclared(n, bytes, z) + u.calls * CallBytes(bytes)
    && u.strings + due.strings <= bytes + u.calls * CallBytes(bytes)
    && u.entries + due.entries <= SetupEntries(n) + 4 * u.calls
    && u.work + due.work + due.entries
         <= SetupWork(n, bytes, z) + SetupEntries(n) + u.calls * CallWork(bytes) + 4 * u.calls
  }

  /** The closed-form ceiling covers every ledger with at most the prepaid calls. */
  lemma CeilingCovers(u: Usage, due: Usage, n: Size, bytes: Size, z: Sizes)
    requires CostOf(n, bytes, z).Some? && Ledger(u, due, n, bytes, z)
    requires u.calls <= 12 * n + 40
    ensures Under(u, CostOf(n, bytes, z).value)
  {
    hide ArrayBytes, CostOf;
    CostClosedForm(n, bytes, z);
    var c := CostOf(n, bytes, z).value;
    var C := c.calls;
    MulLe(u.calls, C, CallBytes(bytes));
    MulLe(u.calls, C, CallWork(bytes));
    Products(C, bytes, n);
  }

  /** The products in the ceiling, expanded. */
  lemma Products(C: nat, bytes: nat, n: nat)
    requires C == 12 * n + 40
    ensures C * CallBytes(bytes) == C * bytes + C * (LOCK_BYTES + 1)
    ensures (bytes + 1) * (C + 2) == C * bytes + C + 2 * bytes + 2
    ensures C * CallWork(bytes) == C * (4 * bytes + 4096) + 4 * (C * LOCK_BYTES)
    ensures (n + 1) * bytes <= C * bytes
  {
    assert C * CallBytes(bytes) == C * (bytes + (LOCK_BYTES + 1)) == C * bytes + C * (LOCK_BYTES + 1);
    assert (bytes + 1) * (C + 2) == bytes * (C + 2) + (C + 2) == bytes * C + 2 * bytes + C + 2;
    assert C * CallWork(bytes) == C * ((4 * bytes + 4096) + 4 * LOCK_BYTES);
    MulLe(n + 1, C, bytes);
  }

  lemma MulLe(a: int, b: int, m: int)
    requires a <= b && 0 <= m
    ensures a * m <= b * m
  {
  }

  lemma MulSign(a: nat, b: nat)
    ensures 0 <= a * b
    ensures a == 0 ==> a * b == 0
  {
  }

  lemma CallBounds(name: nat, bytes: nat)
    requires name <= bytes + LOCK_BYTES
    ensures name + 1 <= CallBytes(bytes) && 4 * name + 4096 <= CallWork(bytes)
  {
  }

  /** Paying for `calls` calls that each name at most the path or the lock keeps the ledger. */
  lemma LedgerCall(u: Usage, due: Usage, n: nat, bytes: nat, z: Sizes, calls: nat, name: nat)
    requires Ledger(u, due, n, bytes, z) && name <= bytes + LOCK_BYTES
    ensures Ledger(Add(u, calls, Scratch(calls, name), Scratch(calls, name), 4 * calls, ScanWork(calls, name)),
                   due, n, bytes, z)
  {
    CallsBounded(calls, name, bytes);
    Distribute(u.calls, calls, CallBytes(bytes));
    Distribute(u.calls, calls, CallWork(bytes));
    hide SetupDeclared, SetupEntries, SetupWork, CallBytes, CallWork, Scratch, ScanWork;
  }

  /** What calls naming a name cost at most, and at least. */
  lemma CallsBounded(calls: nat, name: nat, bytes: nat)
    requires name <= bytes + LOCK_BYTES
    ensures 0 <= Scratch(calls, name) <= calls * CallBytes(bytes)
    ensures 0 <= ScanWork(calls, name) <= calls * CallWork(bytes)
  {
    CallBounds(name, bytes);
    hide CallBytes, CallWork;
    MulLe(name + 1, CallBytes(bytes), calls);
    MulLe(4 * name + 4096, CallWork(bytes), calls);
    MulSign(calls, name + 1);
    MulSign(calls, 4 * name + 4096);
  }

  lemma Distribute(a: int, b: int, m: int)
    ensures (a + b) * m == a * m + b * m
  {
  }

  /** Paying part of what is due keeps the ledger. */
  lemma LedgerSetup(u: Usage, due: Usage, n: nat, bytes: nat, z: Sizes, b: nat, s: nat, e: nat, w: nat)
    requires Ledger(u, due, n, bytes, z)
    requires b <= due.declared && s <= due.strings && e <= due.entries && w <= due.work
    ensures Ledger(Add(u, 0, b, s, e, w),
                   Usage(0, due.declared - b, due.strings - s, due.entries - e, due.work - w), n, bytes, z)
  {
  }

  lemma ArrayParts(n: nat, z: Sizes)
    ensures ArrayBytes(n, z)
         == Times(12 * n + 40, z.observation) + Times(2 * n + 3, z.fileSlot) + Times(n + 1, z.word)
  {
  }

  lemma SetupParts(n: nat, bytes: nat, z: Sizes)
    ensures SetupWork(n, bytes, z) == FixedBytes(z) + 4 * Times(n + 1, bytes) + 2 * bytes + ArrayBytes(n, z)
  {
  }
}
