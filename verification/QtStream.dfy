/**
  The slice of QDataStream that the task payload codec relies on: little-endian
  integers, booleans, UTF-16 strings with a null marker, string lists and path
  remaps. Writing is a function from a field to bytes; reading is a partial
  function from bytes to a field and the bytes left over.
 */
module QtStream {
  import opened Basics

  type Byte = b: int | 0 <= b < 256
  type Unit16 = u: int | 0 <= u < 0x1_0000
  type UInt32 = n: int | 0 <= n < 0x1_0000_0000

  // QString distinguishes the null string from the empty one, and so does its encoding.
  datatype QString = NullString | Text(units: seq<Unit16>)

  datatype Remap = Remap(match_kind: MatchKind, source_path: QString, destination_path: QString)
  datatype MatchKind = RequestRoot | ExactArchivePath | ArchivePrefix

  datatype Kind = KUInt32 | KBool | KString | KList | KRemaps

  datatype Field =
    | FUInt32(n: UInt32)
    | FBool(b: bool)
    | FString(s: QString)
    | FList(items: seq<QString>)
    | FRemaps(remaps: seq<Remap>)

  function KindOf(f: Field): Kind {
    match f
    case FUInt32(_) => KUInt32
    case FBool(_) => KBool
    case FString(_) => KString
    case FList(_) => KList
    case FRemaps(_) => KRemaps
  }

  // Runs of fields and of kinds, in stream order.
  datatype List<+T> = Nil | Cons(head: T, tail: List<T>)

  function KindsOf(fs: List<Field>): List<Kind> {
    match fs
    case Nil => Nil
    case Cons(f, rest) => Cons(KindOf(f), KindsOf(rest))
  }

  function Then(f: Field, fs: List<Field>): (r: List<Field>)
    ensures KindsOf(r) == Cons(KindOf(f), KindsOf(fs))
  {
    Cons(f, fs)
  }

  // Length word that marks a null string, and the first of the reserved length words.
  const NULL_MARK := 0xFFFF_FFFF
  const LENGTH_LIMIT := 0xFFFF_FFFE

  // ---------- writing ----------

  // The low 16 and 32 bits, least significant byte first.
  function LE16(n: nat): (r: seq<Byte>)
    ensures |r| == 2
  {
    [n % 256, n / 256 % 256]
  }

  function LE32(n: nat): (r: seq<Byte>)
    ensures |r| == 4
  {
    LE16(n) + LE16(n / 0x1_0000)
  }

  function EncUnits(us: seq<Unit16>): (r: seq<Byte>)
    ensures |r| == 2 * |us|
  {
    if us == [] then [] else LE16(us[0]) + EncUnits(us[1..])
  }

  function EncString(s: QString): (r: seq<Byte>)
    ensures |r| >= 4
  {
    match s
    case NullString => LE32(NULL_MARK)
    case Text(us) => LE32(2 * |us|) + EncUnits(us)
  }

  function EncStrings(ss: seq<QString>): seq<Byte> {
    if ss == [] then [] else EncString(ss[0]) + EncStrings(ss[1..])
  }

  function MatchCode(k: MatchKind): nat {
    match k
    case RequestRoot => 0
    case ExactArchivePath => 1
    case ArchivePrefix => 2
  }

  function EncRemap(m: Remap): (r: seq<Byte>)
    ensures |r| >= 4
  {
    LE32(MatchCode(m.match_kind)) + (EncString(m.source_path) + EncString(m.destination_path))
  }

  function EncRemaps(ms: seq<Remap>): seq<Byte> {
    if ms == [] then [] else EncRemap(ms[0]) + EncRemaps(ms[1..])
  }

  function EncField(f: Field): seq<Byte> {
    match f
    case FUInt32(n) => LE32(n)
    case FBool(b) => [if b then 1 else 0]
    case FString(s) => EncString(s)
    case FList(items) => LE32(|items|) + EncStrings(items)
    case FRemaps(remaps) => LE32(|remaps|) + EncRemaps(remaps)
  }

  function EncFields(fs: List<Field>): seq<Byte> {
    match fs
    case Nil => []
    case Cons(f, rest) => EncField(f) + EncFields(rest)
  }

  // A QByteArray: its length, then its bytes.
  function EncBytes(bs: seq<Byte>): seq<Byte> {
    LE32(|bs|) + bs
  }

  // ---------- reading ----------

  type Parsed<T> = Option<(T, seq<Byte>)>

  function Word(lo: int, hi: int): int {
    lo + 256 * hi
  }

  function Dec16(d: seq<Byte>): Parsed<Unit16> {
    if |d| < 2 then None else Some((Word(d[0], d[1]), d[2..]))
  }

  function Dec32(d: seq<Byte>): Parsed<UInt32> {
    if |d| < 4 then None
    else Some((Word(d[0], d[1]) + 0x1_0000 * Word(d[2], d[3]), d[4..]))
  }

  function DecBool(d: seq<Byte>): Parsed<bool> {
    if |d| < 1 then None else Some((d[0] != 0, d[1..]))
  }

  function DecUnits(n: nat, d: seq<Byte>): Parsed<seq<Unit16>> {
    if n == 0 then Some(([], d))
    else match Dec16(d)
         case None => None
         case Some((u, d1)) =>
           match DecUnits(n - 1, d1)
           case None => None
           case Some((us, d2)) => Some(([u] + us, d2))
  }

  // An odd byte count is corrupt; the all-ones count is the null string.
  function DecString(d: seq<Byte>): Parsed<QString> {
    match Dec32(d)
    case None => None
    case Some((n, d1)) =>
      if n == NULL_MARK then Some((NullString, d1))
      else if n % 2 == 1 then None
      else match DecUnits(n / 2, d1)
           case None => None
           case Some((us, d2)) => Some((Text(us), d2))
  }

  function DecStrings(n: nat, d: seq<Byte>): Parsed<seq<QString>> {
    if n == 0 then Some(([], d))
    else match DecString(d)
         case None => None
         case Some((s, d1)) =>
           match DecStrings(n - 1, d1)
           case None => None
           case Some((ss, d2)) => Some(([s] + ss, d2))
  }

  // Unknown codes fall back to the request root.
  function MatchFromCode(n: UInt32): MatchKind {
    if n == 1 then ExactArchivePath else if n == 2 then ArchivePrefix else RequestRoot
  }

  function DecRemap(d: seq<Byte>): Parsed<Remap> {
    match Dec32(d)
    case None => None
    case Some((code, d1)) =>
      match DecString(d1)
      case None => None
      case Some((src, d2)) =>
        match DecString(d2)
        case None => None
        case Some((dst, d3)) => Some((Remap(MatchFromCode(code), src, dst), d3))
  }

  function DecRemaps(n: nat, d: seq<Byte>): Parsed<seq<Remap>> {
    if n == 0 then Some(([], d))
    else match DecRemap(d)
         case None => None
         case Some((m, d1)) =>
           match DecRemaps(n - 1, d1)
           case None => None
           case Some((ms, d2)) => Some(([m] + ms, d2))
  }

  function DecField(k: Kind, d: seq<Byte>): Parsed<Field> {
    match k
    case KUInt32 => (match Dec32(d) case None => None case Some((n, r)) => Some((FUInt32(n), r)))
    case KBool => (match DecBool(d) case None => None case Some((b, r)) => Some((FBool(b), r)))
    case KString => (match DecString(d) case None => None case Some((s, r)) => Some((FString(s), r)))
    case KList =>
      (match Dec32(d)
       case None => None
       case Some((n, d1)) =>
         match DecStrings(n, d1) case None => None case Some((ss, r)) => Some((FList(ss), r)))
    case KRemaps =>
      (match Dec32(d)
       case None => None
       case Some((n, d1)) =>
         match DecRemaps(n, d1) case None => None case Some((ms, r)) => Some((FRemaps(ms), r)))
  }

  function DecFields(ks: List<Kind>, d: seq<Byte>): (r: Parsed<List<Field>>)
    ensures r.Some? ==> KindsOf(r.value.0) == ks
  {
    match ks
    case Nil => Some((Nil, d))
    case Cons(k, rest) =>
      match DecField(k, d)
      case None => None
      case Some((f, d1)) =>
        match DecFields(rest, d1)
        case None => None
        case Some((fs, d2)) => Some((Cons(f, fs), d2))
  }

  function DecBytes(d: seq<Byte>): Parsed<seq<Byte>> {
    match Dec32(d)
    case None => None
    case Some((n, d1)) =>
      if n == NULL_MARK then Some(([], d1))
      else if |d1| < n then None
      else Some((d1[..n], d1[n..]))
  }

  // ---------- every reader undoes its writer and consumes exactly its bytes ----------

  lemma RoundTrip16(n: nat, rest: seq<Byte>)
    ensures n < 0x1_0000 ==> Dec16(LE16(n) + rest) == Some((n, rest))
  {
    if n < 0x1_0000 {
      assert n / 256 % 256 == n / 256;
      assert (LE16(n) + rest)[2..] == rest;
    }
  }

  lemma RoundTrip32(n: nat, rest: seq<Byte>)
    requires n < 0x1_0000_0000
    ensures Dec32(LE32(n) + rest) == Some((n, rest))
  {
    var lo, hi := n % 0x1_0000, n / 0x1_0000;
    assert n == lo + 0x1_0000 * hi && hi / 256 % 256 == hi / 256;
    assert n % 256 == lo % 256 && n / 256 % 256 == lo / 256 by {
      assert n == lo + 0x1_0000 * hi;
      assert n / 256 == lo / 256 + 256 * hi;
    }
    assert (LE32(n) + rest)[4..] == rest;
  }

  // What was read as a number are the bytes of that number.
  lemma Read16(d: seq<Byte>)
    requires Dec16(d).Some?
    ensures d == LE16(Dec16(d).value.0) + Dec16(d).value.1
  {
    var n := Word(d[0], d[1]);
    assert n % 256 == d[0] && n / 256 == d[1];
    assert d[..2] == [d[0], d[1]] && d == d[..2] + d[2..];
  }

  lemma Read32(d: seq<Byte>)
    requires Dec32(d).Some?
    ensures d == LE32(Dec32(d).value.0) + Dec32(d).value.1
  {
    var lo, hi := Word(d[0], d[1]), Word(d[2], d[3]);
    var n := lo + 0x1_0000 * hi;
    assert 0 <= lo < 0x1_0000 && n / 0x1_0000 == hi;
    assert n % 256 == d[0] && n / 256 % 256 == d[1] by {
      assert n == d[0] + 256 * (d[1] + 256 * hi);
      assert n / 256 == d[1] + 256 * hi;
    }
    assert hi % 256 == d[2] && hi / 256 == d[3];
    assert LE32(n) == [d[0], d[1], d[2], d[3]];
    assert d == d[..4] + d[4..] && d[..4] == [d[0], d[1], d[2], d[3]];
  }

  // A byte array that is not empty was read from its own encoding.
  lemma ReadBytes(d: seq<Byte>)
    requires DecBytes(d).Some? && DecBytes(d).value.0 != []
    ensures d == EncBytes(DecBytes(d).value.0) + DecBytes(d).value.1
  {
    hide LE32, Dec32;
    Read32(d);
    var n, d1 := Dec32(d).value.0, Dec32(d).value.1;
    assert d1 == d1[..n] + d1[n..];
    assert d == LE32(n) + d1[..n] + d1[n..];
  }

  lemma {:induction false} RoundTripUnits(us: seq<Unit16>, rest: seq<Byte>)
    ensures DecUnits(|us|, EncUnits(us) + rest) == Some((us, rest))
  {
    if us == [] {
      assert EncUnits(us) + rest == rest;
    } else {
      RoundTripUnits(us[1..], rest);
      RoundTrip16(us[0], EncUnits(us[1..]) + rest);
      hide LE16, Dec16;
      assert EncUnits(us) + rest == LE16(us[0]) + (EncUnits(us[1..]) + rest);
      assert us == [us[0]] + us[1..];
    }
  }

  lemma RoundTripString(s: QString, rest: seq<Byte>)
    requires |EncString(s)| < LENGTH_LIMIT
    ensures DecString(EncString(s) + rest) == Some((s, rest))
  {
    hide LE32, Dec32, EncUnits, DecUnits;
    match s
    case NullString => RoundTrip32(NULL_MARK, rest);
    case Text(us) =>
      RoundTrip32(2 * |us|, EncUnits(us) + rest);
      RoundTripUnits(us, rest);
      assert EncString(s) + rest == LE32(2 * |us|) + (EncUnits(us) + rest);
  }

  lemma {:induction false} RoundTripStrings(ss: seq<QString>, rest: seq<Byte>)
    requires |EncStrings(ss)| < LENGTH_LIMIT
    ensures |ss| <= |EncStrings(ss)|
    ensures DecStrings(|ss|, EncStrings(ss) + rest) == Some((ss, rest))
  {
    hide EncString, DecString;
    if ss == [] {
      assert EncStrings(ss) + rest == rest;
    } else {
      RoundTripStrings(ss[1..], rest);
      RoundTripString(ss[0], EncStrings(ss[1..]) + rest);
      assert EncStrings(ss) + rest == EncString(ss[0]) + (EncStrings(ss[1..]) + rest);
      assert ss == [ss[0]] + ss[1..];
    }
  }

  lemma RoundTripRemap(m: Remap, rest: seq<Byte>)
    requires |EncRemap(m)| < LENGTH_LIMIT
    ensures DecRemap(EncRemap(m) + rest) == Some((m, rest))
  {
    hide EncString, DecString, LE32, Dec32;
    var dst := EncString(m.destination_path) + rest;
    RoundTrip32(MatchCode(m.match_kind), EncString(m.source_path) + dst);
    RoundTripString(m.source_path, dst);
    RoundTripString(m.destination_path, rest);
    assert EncRemap(m) + rest == LE32(MatchCode(m.match_kind)) + (EncString(m.source_path) + dst);
  }

  lemma {:induction false} RoundTripRemaps(ms: seq<Remap>, rest: seq<Byte>)
    requires |EncRemaps(ms)| < LENGTH_LIMIT
    ensures |ms| <= |EncRemaps(ms)|
    ensures DecRemaps(|ms|, EncRemaps(ms) + rest) == Some((ms, rest))
  {
    hide EncRemap, DecRemap;
    if ms == [] {
      assert EncRemaps(ms) + rest == rest;
    } else {
      RoundTripRemaps(ms[1..], rest);
      RoundTripRemap(ms[0], EncRemaps(ms[1..]) + rest);
      assert EncRemaps(ms) + rest == EncRemap(ms[0]) + (EncRemaps(ms[1..]) + rest);
      assert ms == [ms[0]] + ms[1..];
    }
  }

  lemma RoundTripField(f: Field, rest: seq<Byte>)
    requires |EncField(f)| < LENGTH_LIMIT
    ensures DecField(KindOf(f), EncField(f) + rest) == Some((f, rest))
  {
    hide EncString, DecString, EncStrings, DecStrings, EncRemaps, DecRemaps, LE32, Dec32;
    match f
    case FUInt32(n) => RoundTrip32(n, rest);
    case FBool(b) => assert (EncField(f) + rest)[1..] == rest;
    case FString(s) => RoundTripString(s, rest);
    case FList(ss) =>
      RoundTripStrings(ss, rest);
      RoundTrip32(|ss|, EncStrings(ss) + rest);
      assert EncField(f) + rest == LE32(|ss|) + (EncStrings(ss) + rest);
    case FRemaps(ms) =>
      RoundTripRemaps(ms, rest);
      RoundTrip32(|ms|, EncRemaps(ms) + rest);
      assert EncField(f) + rest == LE32(|ms|) + (EncRemaps(ms) + rest);
  }

  lemma {:induction false} RoundTripFields(fs: List<Field>, rest: seq<Byte>)
    requires |EncFields(fs)| < LENGTH_LIMIT
    ensures DecFields(KindsOf(fs), EncFields(fs) + rest) == Some((fs, rest))
  {
    hide EncField, DecField;
    match fs
    case Nil => assert EncFields(fs) + rest == rest;
    case Cons(f, gs) =>
      RoundTripFields(gs, rest);
      RoundTripField(f, EncFields(gs) + rest);
      assert EncFields(fs) + rest == EncField(f) + (EncFields(gs) + rest);
  }

  lemma RoundTripBytes(bs: seq<Byte>, rest: seq<Byte>)
    requires |bs| < LENGTH_LIMIT
    ensures DecBytes(EncBytes(bs) + rest) == Some((bs, rest))
  {
    RoundTrip32(|bs|, bs + rest);
    assert EncBytes(bs) + rest == LE32(|bs|) + (bs + rest);
    assert (bs + rest)[..|bs|] == bs && (bs + rest)[|bs|..] == rest;
  }

  // ---------- the streams ----------

  class DataWriter {
    var bytes: seq<Byte>

    constructor ()
      ensures bytes == []
    {
      bytes := [];
    }

    method WriteUInt32(n: nat)
      modifies this
      ensures bytes == old(bytes) + LE32(n)
    {
      hide LE32;
      bytes := bytes + LE32(n);
    }

    method WriteUInt16(n: Unit16)
      modifies this
      ensures bytes == old(bytes) + LE16(n)
    {
      bytes := bytes + LE16(n);
    }

    method WriteBytes(bs: seq<Byte>)
      modifies this
      ensures bytes == old(bytes) + EncBytes(bs)
    {
      bytes := bytes + EncBytes(bs);
    }

    method WriteRawData(bs: seq<Byte>)
      modifies this
      ensures bytes == old(bytes) + bs
    {
      bytes := bytes + bs;
    }

    method WriteString(s: QString)
      modifies this
      ensures bytes == old(bytes) + EncString(s)
    {
      match s
      case NullString => bytes := bytes + LE32(NULL_MARK);
      case Text(us) =>
        bytes := bytes + LE32(2 * |us|);
        ghost var start := bytes;
        hide LE16, LE32;
        var i := 0;
        while i < |us|
          invariant i <= |us| && bytes + EncUnits(us[i..]) == start + EncUnits(us)
        {
          assert us[i..][1..] == us[i + 1..];
          assert bytes + EncUnits(us[i..]) == bytes + LE16(us[i]) + EncUnits(us[i + 1..]);
          bytes := bytes + LE16(us[i]);
          i := i + 1;
        }
        assert us[i..] == [] && bytes + [] == bytes;
    }

    method WriteStrings(ss: seq<QString>)
      modifies this
      ensures bytes == old(bytes) + EncStrings(ss)
    {
      hide EncString;
      for i := 0 to |ss|
        invariant bytes + EncStrings(ss[i..]) == old(bytes) + EncStrings(ss)
      {
        assert ss[i..][1..] == ss[i + 1..];
        assert bytes + EncStrings(ss[i..]) == bytes + EncString(ss[i]) + EncStrings(ss[i + 1..]);
        WriteString(ss[i]);
      }
      assert ss[|ss|..] == [] && bytes + [] == bytes;
    }

    method WriteRemaps(ms: seq<Remap>)
      modifies this
      ensures bytes == old(bytes) + EncRemaps(ms)
    {
      hide EncString, LE32;
      for i := 0 to |ms|
        invariant bytes + EncRemaps(ms[i..]) == old(bytes) + EncRemaps(ms)
      {
        assert ms[i..][1..] == ms[i + 1..];
        assert bytes + EncRemaps(ms[i..]) == bytes + EncRemap(ms[i]) + EncRemaps(ms[i + 1..]);
        ghost var before := bytes;
        WriteUInt32(MatchCode(ms[i].match_kind));
        WriteString(ms[i].source_path);
        WriteString(ms[i].destination_path);
        assert bytes == before + EncRemap(ms[i]);
      }
      assert ms[|ms|..] == [] && bytes + [] == bytes;
    }

    method WriteField(f: Field)
      modifies this
      ensures bytes == old(bytes) + EncField(f)
    {
      hide EncString, EncStrings, EncRemaps, LE32;
      match f
      case FUInt32(n) => WriteUInt32(n);
      case FBool(b) => bytes := bytes + [if b then 1 else 0];
      case FString(s) => WriteString(s);
      case FList(items) =>
        bytes := bytes + LE32(|items|);
        WriteStrings(items);
      case FRemaps(remaps) =>
        bytes := bytes + LE32(|remaps|);
        WriteRemaps(remaps);
    }

    method WriteFields(fs: List<Field>)
      modifies this
      ensures bytes == old(bytes) + EncFields(fs)
    {
      hide EncField;
      var todo := fs;
      while todo.Cons?
        invariant bytes + EncFields(todo) == old(bytes) + EncFields(fs)
        decreases todo
      {
        assert bytes + EncFields(todo) == bytes + EncField(todo.head) + EncFields(todo.tail);
        WriteField(todo.head);
        todo := todo.tail;
      }
      assert bytes + [] == bytes;
    }
  }

  // What remains to be parsed, with the items already read put in front.
  ghost function Prepend<T>(xs: seq<T>, p: Parsed<seq<T>>): Parsed<seq<T>> {
    match p case None => None case Some((ys, r)) => Some((xs + ys, r))
  }

  lemma PrependNone<T>(p: Parsed<seq<T>>)
    ensures Prepend([], p) == p
  {
    if p.Some? { assert [] + p.value.0 == p.value.0; }
  }

  lemma PrependSnoc<T>(xs: seq<T>, x: T, p: Parsed<seq<T>>)
    ensures Prepend(xs, Prepend([x], p)) == Prepend(xs + [x], p)
  {
    if p.Some? { assert xs + ([x] + p.value.0) == xs + [x] + p.value.0; }
  }

  class DataReader {
    const data: seq<Byte>
    var pos: nat
    var ok: bool

    ghost predicate Valid()
      reads this
    {
      pos <= |data|
    }

    function Rest(): seq<Byte>
      requires Valid()
      reads this
    {
      data[pos..]
    }

    // The stream went on from a state with status `was`, whose unread bytes parse as `parsed`.
    ghost predicate Took<T(!new)>(was: bool, parsed: Parsed<T>, value: T)
      reads this
    {
      && Valid()
      && (ok <==> was && parsed.Some?)
      && (ok ==> parsed.value == (value, Rest()))
    }

    constructor (data: seq<Byte>)
      ensures this.data == data && Valid() && ok && Rest() == data
    {
      this.data, pos, ok := data, 0, true;
    }

    method ReadUInt32() returns (n: UInt32)
      requires Valid()
      modifies this
      ensures Took(old(ok), Dec32(old(Rest())), n)
    {
      n := 0;
      ok := ok && |data| - pos >= 4;
      if ok {
        n := Word(data[pos], data[pos + 1]) + 0x1_0000 * Word(data[pos + 2], data[pos + 3]);
        pos := pos + 4;
      }
    }

    method ReadBool() returns (b: bool)
      requires Valid()
      modifies this
      ensures Took(old(ok), DecBool(old(Rest())), b)
    {
      b := false;
      ok := ok && pos < |data|;
      if ok {
        b := data[pos] != 0;
        pos := pos + 1;
      }
    }

    method ReadUInt16() returns (u: Unit16)
      requires Valid()
      modifies this
      ensures Took(old(ok), Dec16(old(Rest())), u)
    {
      u := 0;
      ok := ok && |data| - pos >= 2;
      if ok {
        u := Word(data[pos], data[pos + 1]);
        pos := pos + 2;
      }
    }

    method ReadUnits(n: nat) returns (us: seq<Unit16>)
      requires Valid()
      modifies this
      ensures Took(old(ok), DecUnits(n, old(Rest())), us)
    {
      hide Dec16;
      us := [];
      ghost var start := Rest();
      PrependNone(DecUnits(n, start));
      for i := 0 to n
        invariant Valid() && (ok ==> old(ok))
        invariant old(ok) ==>
                  DecUnits(n, start) == if ok then Prepend(us, DecUnits(n - i, Rest())) else None
      {
        ghost var before := us;
        var u := ReadUInt16();
        us := us + [u];
        PrependSnoc(before, u, if ok then DecUnits(n - i - 1, Rest()) else None);
      }
      assert us + [] == us;
    }

    method ReadString() returns (s: QString)
      requires Valid()
      modifies this
      ensures Took(old(ok), DecString(old(Rest())), s)
    {
      hide Dec32, DecUnits;
      s := NullString;
      var n := ReadUInt32();
      if ok && n != NULL_MARK {
        ok := n % 2 == 0;
        if ok {
          var us := ReadUnits(n / 2);
          s := Text(us);
        }
      }
    }

    method ReadStrings(n: nat) returns (ss: seq<QString>)
      requires Valid()
      modifies this
      ensures Took(old(ok), DecStrings(n, old(Rest())), ss)
    {
      hide DecString;
      ss := [];
      ghost var start := Rest();
      PrependNone(DecStrings(n, start));
      for i := 0 to n
        invariant Valid() && (ok ==> old(ok))
        invariant old(ok) ==>
                  DecStrings(n, start) == if ok then Prepend(ss, DecStrings(n - i, Rest())) else None
      {
        ghost var before := ss;
        var s := ReadString();
        ss := ss + [s];
        PrependSnoc(before, s, if ok then DecStrings(n - i - 1, Rest()) else None);
      }
      assert ss + [] == ss;
    }

    method ReadRemap() returns (m: Remap)
      requires Valid()
      modifies this
      ensures Took(old(ok), DecRemap(old(Rest())), m)
    {
      hide Dec32, DecString;
      var code := ReadUInt32();
      var source_path := ReadString();
      var destination_path := ReadString();
      m := Remap(MatchFromCode(code), source_path, destination_path);
    }

    method ReadRemaps(n: nat) returns (ms: seq<Remap>)
      requires Valid()
      modifies this
      ensures Took(old(ok), DecRemaps(n, old(Rest())), ms)
    {
      hide DecRemap;
      ms := [];
      ghost var start := Rest();
      PrependNone(DecRemaps(n, start));
      for i := 0 to n
        invariant Valid() && (ok ==> old(ok))
        invariant old(ok) ==>
                  DecRemaps(n, start) == if ok then Prepend(ms, DecRemaps(n - i, Rest())) else None
      {
        ghost var before := ms;
        var m := ReadRemap();
        ms := ms + [m];
        PrependSnoc(before, m, if ok then DecRemaps(n - i - 1, Rest()) else None);
      }
      assert ms + [] == ms;
    }

    method ReadField(k: Kind) returns (f: Field)
      requires Valid()
      modifies this
      ensures Took(old(ok), DecField(k, old(Rest())), f)
    {
      hide Dec32, DecBool, DecString, DecStrings, DecRemaps;
      match k
      case KUInt32 => var n := ReadUInt32(); f := FUInt32(n);
      case KBool => var b := ReadBool(); f := FBool(b);
      case KString => var s := ReadString(); f := FString(s);
      case KList => var n := ReadUInt32(); var ss := ReadStrings(n); f := FList(ss);
      case KRemaps => var n := ReadUInt32(); var ms := ReadRemaps(n); f := FRemaps(ms);
    }

    method ReadFields(ks: List<Kind>) returns (fs: List<Field>)
      requires Valid()
      modifies this
      ensures Took(old(ok), DecFields(ks, old(Rest())), fs)
      decreases ks
    {
      hide DecField;
      match ks
      case Nil => fs := Nil;
      case Cons(k, rest) =>
        var f := ReadField(k);
        var gs := ReadFields(rest);
        fs := Cons(f, gs);
    }

    method ReadBytes() returns (bs: seq<Byte>)
      requires Valid()
      modifies this
      ensures Took(old(ok), DecBytes(old(Rest())), bs)
    {
      hide Dec32;
      bs := [];
      var n := ReadUInt32();
      if ok && n != NULL_MARK {
        ok := |data| - pos >= n;
        if ok {
          bs := data[pos..pos + n];
          assert bs == Rest()[..n] && data[pos + n..] == Rest()[n..];
          pos := pos + n;
        }
      }
    }
  }
}
