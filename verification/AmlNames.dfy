/** AML name strings: their bytecode, and the order in which a lookup visits their parts. */
module AmlNames {
  import opened Base

  type Name = n: seq<Byte> | |n| == 4 witness [0, 0, 0, 0]

  const DUAL_NAME_PREFIX: Byte := 0x2E
  const MULTI_NAME_PREFIX: Byte := 0x2F
  const ROOT_CHAR: Byte := 0x5C
  const PARENT_CHAR: Byte := 0x5E

  datatype Namestring = Root(path: seq<Name>) | Relative(level: nat, path: seq<Name>)

  // ---------------------------------------------------------------- lookup order

  datatype Item = ToRoot | ToParent | Along(path: seq<Name>)

  /** The iterator's `next` at `index`. */
  function NextItem(ns: Namestring, index: nat): Option<Item> {
    match ns
    case Root(path) => if index == 0 then Some(ToRoot) else if index == 1 then Some(Along(path)) else None
    case Relative(level, path) =>
      if index < level then Some(ToParent) else if index == level then Some(Along(path)) else None
  }

  // ---------------------------------------------------------------- bytecode

  /** A value and the number of bytes read, a parse failure, or a read past the end of the bytecode. */
  datatype Parsed<+T> = Ok(value: T, used: nat) | Fail | Panic

  /** The bytes cut into names. */
  function Chunks(b: seq<Byte>): (names: seq<Name>)
    requires |b| % 4 == 0
    ensures |names| == |b| / 4
  {
    if b == [] then [] else [b[..4]] + Chunks(b[4..])
  }

  function Flat(names: seq<Name>): (b: seq<Byte>)
    ensures |b| == 4 * |names|
  {
    if names == [] then [] else names[0] + Flat(names[1..])
  }

  function MultiEnd(count: int): int { 2 + 4 * count }

  predicate LeadChar(x: Byte) { 0x41 <= x <= 0x5A || x == 0x5F }

  /** NamePath::from_bytes. */
  function ParsePath(b: seq<Byte>): (r: Parsed<seq<Name>>)
    ensures r.Ok? ==> r.used <= |b|
  {
    if b == [] then Fail
    else if b[0] == 0 then Ok([], 1)
    else if b[0] == DUAL_NAME_PREFIX then if |b| < 9 then Panic else Ok(Chunks(b[1..9]), 9)
    else if b[0] == MULTI_NAME_PREFIX then
      if |b| < 2 then Fail
      else if |b| < MultiEnd(b[1]) then Panic
      else Ok(Chunks(b[2..MultiEnd(b[1])]), MultiEnd(b[1]))
    else if LeadChar(b[0]) then if |b| < 4 then Panic else Ok([b[..4]], 4)
    else Fail
  }

  /** The number of leading carets. */
  function Carets(b: seq<Byte>): (n: nat)
    ensures n <= |b| && (n < |b| ==> b[n] != PARENT_CHAR)
    ensures forall i :: 0 <= i < n ==> b[i] == PARENT_CHAR
  {
    if b == [] || b[0] != PARENT_CHAR then 0 else 1 + Carets(b[1..])
  }

  /** Namestring::from_bytes after `n` carets were read. */
  function ParseAfter(b: seq<Byte>, n: nat): (r: Parsed<Namestring>)
    requires n <= |b|
    ensures r.Ok? ==> r.used <= |b|
  {
    if n == |b| then Fail
    else if b[n] == ROOT_CHAR then
      match ParsePath(b[n + 1..])
      case Ok(path, used) => Ok(Root(path), n + 1 + used)
      case Fail => Fail
      case Panic => Panic
    else
      match ParsePath(b[n..])
      case Ok(path, used) => Ok(Relative(n, path), n + used)
      case Fail => Fail
      case Panic => Panic
  }

  /** Namestring::from_bytes; the level is a u8. */
  function Parse(b: seq<Byte>): (r: Parsed<Namestring>)
    ensures r.Ok? ==> r.used <= |b|
  {
    if Carets(b) > 255 then Panic else ParseAfter(b, Carets(b))
  }

  lemma {:induction false} CaretsAre(b: seq<Byte>, n: nat)
    requires n <= |b| && (n < |b| ==> b[n] != PARENT_CHAR)
    requires forall i :: 0 <= i < n ==> b[i] == PARENT_CHAR
    ensures Carets(b) == n
  {
    if n > 0 { CaretsAre(b[1..], n - 1); }
  }

  lemma {:induction false} CaretsAtLeast(b: seq<Byte>, n: nat)
    requires n <= |b| && forall i :: 0 <= i < n ==> b[i] == PARENT_CHAR
    ensures Carets(b) >= n
  {
    if n > 0 { CaretsAtLeast(b[1..], n - 1); }
  }

  method ParseNamestring(b: seq<Byte>) returns (r: Parsed<Namestring>)
    ensures r == Parse(b)
  {
    var level := 0;
    while level < |b| && b[level] == PARENT_CHAR
      invariant level <= |b| && level <= 255
      invariant forall i :: 0 <= i < level ==> b[i] == PARENT_CHAR
    {
      if level == 255 {
        CaretsAtLeast(b, 256);
        return Panic;
      }
      level := level + 1;
    }
    CaretsAre(b, level);
    r := ParseAfter(b, level);
  }

  function PathLength(path: seq<Name>): nat {
    match |path| case 0 => 1 case 1 => 4 case 2 => 9 case n => 2 + n * 4
  }

  /** bytecode_length, which callers subtract from a package length after parsing the name. */
  function BytecodeLength(ns: Namestring): nat {
    match ns
    case Root(path) => 1 + PathLength(path)
    case Relative(level, path) => level + PathLength(path)
  }

  /** A path is written with a shorter prefix than the multi-name one when it can be. */
  predicate ShortMulti(b: seq<Byte>) { |b| >= 2 && b[0] == MULTI_NAME_PREFIX && b[1] < 3 }

  lemma PathLengthExact(b: seq<Byte>)
    requires ParsePath(b).Ok?
    ensures ParsePath(b).used >= PathLength(ParsePath(b).value)
    ensures ParsePath(b).used == PathLength(ParsePath(b).value) <==> !ShortMulti(b)
  {
    if b[0] == MULTI_NAME_PREFIX { assert |Chunks(b[2..MultiEnd(b[1])])| == b[1]; }
  }

  /** The same after `n` carets. */
  lemma AfterLengthExact(b: seq<Byte>, n: nat)
    requires n <= |b| && ParseAfter(b, n).Ok?
    ensures var r := ParseAfter(b, n);
            && n < |b|
            && BytecodeLength(r.value) <= r.used
            && (BytecodeLength(r.value) == r.used <==>
                if b[n] == ROOT_CHAR then n == 0 && !ShortMulti(b[1..]) else !ShortMulti(b[n..]))
  {
    if b[n] == ROOT_CHAR { PathLengthExact(b[n + 1..]); } else { PathLengthExact(b[n..]); }
  }

  /** bytecode_length never exceeds the bytes read. It equals them exactly when no caret precedes a root character
      and the path is not written as a multi-name of fewer than three names. */
  lemma LengthExact(b: seq<Byte>)
    requires Parse(b).Ok?
    ensures var n := Carets(b); var r := Parse(b);
            && n < |b|
            && BytecodeLength(r.value) <= r.used
            && (BytecodeLength(r.value) == r.used <==>
                if b[n] == ROOT_CHAR then n == 0 && !ShortMulti(b[1..]) else !ShortMulti(b[n..]))
  {
    AfterLengthExact(b, Carets(b));
  }

  /** A caret before a root character: three bytes are read and two reported. */
  lemma CaretBeforeRoot()
    ensures var b := [PARENT_CHAR, ROOT_CHAR, 0];
            Parse(b) == Ok(Root([]), 3) && BytecodeLength(Root([])) == 2
  {
    var b: seq<Byte> := [PARENT_CHAR, ROOT_CHAR, 0];
    CaretsAre(b, 1);
    assert b[2..] == [0];
  }

  // ---------------------------------------------------------------- round trip

  lemma {:induction false} ChunksOfFlat(names: seq<Name>)
    ensures Chunks(Flat(names)) == names
  {
    if names != [] {
      ChunksOfFlat(names[1..]);
      assert Flat(names)[..4] == names[0] && Flat(names)[4..] == Flat(names[1..]);
    }
  }

  /** What a compiler may write: a lone name starts with a letter or underscore, and counts fit a byte. */
  predicate PathWritable(path: seq<Name>) { |path| <= 255 && (|path| == 1 ==> LeadChar(path[0][0])) }

  predicate Writable(ns: Namestring) { PathWritable(ns.path) && (ns.Relative? ==> ns.level <= 255) }

  function EncodePath(path: seq<Name>): (b: seq<Byte>)
    requires PathWritable(path)
    ensures |b| == PathLength(path)
  {
    match |path|
    case 0 => [0]
    case 1 => path[0]
    case 2 => [DUAL_NAME_PREFIX] + Flat(path)
    case n => [MULTI_NAME_PREFIX, n] + Flat(path)
  }

  function Repeat(n: nat): (b: seq<Byte>)
    ensures |b| == n && forall i :: 0 <= i < n ==> b[i] == PARENT_CHAR
  {
    if n == 0 then [] else [PARENT_CHAR] + Repeat(n - 1)
  }

  function Encode(ns: Namestring): (b: seq<Byte>)
    requires Writable(ns)
    ensures |b| == BytecodeLength(ns)
  {
    match ns
    case Root(path) => [ROOT_CHAR] + EncodePath(path)
    case Relative(level, path) => Repeat(level) + EncodePath(path)
  }

  lemma PathRoundTrip(path: seq<Name>, rest: seq<Byte>)
    requires PathWritable(path)
    ensures ParsePath(EncodePath(path) + rest) == Ok(path, PathLength(path))
  {
    var b := EncodePath(path) + rest;
    ChunksOfFlat(path);
    if |path| == 1 {
      assert b[..4] == path[0] && path == [path[0]] && b[0] == path[0][0];
    } else if |path| == 2 {
      assert b[1..9] == Flat(path);
    } else if |path| > 2 {
      assert b[1] == |path| && b[2..2 + 4 * |path|] == Flat(path);
    }
  }

  /** A path after `n` carets, where the path starts with neither special character. */
  lemma RelativeRoundTrip(n: nat, path: seq<Name>, rest: seq<Byte>)
    requires PathWritable(path) && n <= 255
    ensures Parse(Repeat(n) + EncodePath(path) + rest) == Ok(Relative(n, path), n + PathLength(path))
  {
    var lead := EncodePath(path);
    var b := Repeat(n) + lead + rest;
    PathRoundTrip(path, rest);
    assert lead[0] != PARENT_CHAR && lead[0] != ROOT_CHAR by { FirstByte(path); }
    assert b[n] == lead[0] && b[n..] == lead + rest;
    CaretsAre(b, n);
  }

  lemma FirstByte(path: seq<Name>)
    requires PathWritable(path)
    ensures EncodePath(path)[0] != PARENT_CHAR && EncodePath(path)[0] != ROOT_CHAR
  {
  }

  lemma RootRoundTrip(path: seq<Name>, rest: seq<Byte>)
    requires PathWritable(path)
    ensures Parse([ROOT_CHAR] + EncodePath(path) + rest) == Ok(Root(path), 1 + PathLength(path))
  {
    var b := [ROOT_CHAR] + EncodePath(path) + rest;
    PathRoundTrip(path, rest);
    CaretsAre(b, 0);
    assert b[1..] == EncodePath(path) + rest;
  }

  /** Whatever follows it, an encoded name string parses back to itself and takes bytecode_length bytes. */
  lemma RoundTrip(ns: Namestring, rest: seq<Byte>)
    requires Writable(ns)
    ensures Parse(Encode(ns) + rest) == Ok(ns, BytecodeLength(ns))
  {
    match ns
    case Root(path) => RootRoundTrip(path, rest);
    case Relative(level, path) => RelativeRoundTrip(level, path, rest);
  }

  lemma {:induction false} FlatOfChunks(b: seq<Byte>)
    requires |b| % 4 == 0
    ensures Flat(Chunks(b)) == b
  {
    if b != [] {
      FlatOfChunks(b[4..]);
      assert b[..4] + b[4..] == b;
    }
  }

  lemma PathBytes(b: seq<Byte>)
    requires ParsePath(b).Ok? && !ShortMulti(b)
    ensures var r := ParsePath(b); PathWritable(r.value) && EncodePath(r.value) == b[..r.used]
  {
    var r := ParsePath(b);
    if b[0] == DUAL_NAME_PREFIX {
      FlatOfChunks(b[1..9]);
      assert b[..9] == [DUAL_NAME_PREFIX] + b[1..9];
    } else if b[0] == MULTI_NAME_PREFIX {
      FlatOfChunks(b[2..MultiEnd(b[1])]);
      assert b[..MultiEnd(b[1])] == [MULTI_NAME_PREFIX, b[1]] + b[2..MultiEnd(b[1])];
    } else if b[0] == 0 {
      assert b[..1] == [0];
    }
  }

  lemma CaretBytes(b: seq<Byte>, n: nat)
    requires n <= |b| && forall i :: 0 <= i < n ==> b[i] == PARENT_CHAR
    ensures b[..n] == Repeat(n)
  {
  }

  /** The other way round: what parses, and is not one of the cases with a shorter encoding, is the encoding of what it
      parses to. */
  lemma ParsedIsEncoded(b: seq<Byte>)
    requires Parse(b).Ok? && BytecodeLength(Parse(b).value) == Parse(b).used
    ensures var r := Parse(b); Writable(r.value) && b[..r.used] == Encode(r.value)
  {
    var n, r := Carets(b), Parse(b);
    LengthExact(b);
    if b[n] == ROOT_CHAR {
      PathBytes(b[1..]);
      assert b[..r.used] == [ROOT_CHAR] + b[1..][..r.used - 1];
    } else {
      PathBytes(b[n..]);
      CaretBytes(b, n);
      assert b[..r.used] == b[..n] + b[n..][..r.used - n];
    }
  }
}
