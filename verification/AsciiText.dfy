/**
  Byte strings: trimming as std::isspace sees it in the C locale, and the
  fixed-capacity, zero-filled text buffers of the shared-memory records.
 */
module AsciiText {
  import opened QtStream

  type Bytes = seq<Byte>

  predicate IsSpace(b: Byte) {
    9 <= b <= 13 || b == 32
  }

  function TrimLeft(s: Bytes): Bytes {
    if s != [] && IsSpace(s[0]) then TrimLeft(s[1..]) else s
  }

  function TrimRight(s: Bytes): Bytes {
    if s != [] && IsSpace(s[|s| - 1]) then TrimRight(s[..|s| - 1]) else s
  }

  function Trim(s: Bytes): Bytes {
    TrimRight(TrimLeft(s))
  }

  predicate Trimmed(s: Bytes) {
    s == [] || (!IsSpace(s[0]) && !IsSpace(s[|s| - 1]))
  }

  // What trimming removes: a run of spaces on each side, and nothing else.
  lemma TrimSplits(s: Bytes) returns (l: nat, r: nat)
    ensures l <= r <= |s| && Trim(s) == s[l..r] && Trimmed(Trim(s))
    ensures forall i | 0 <= i < l :: IsSpace(s[i])
    ensures forall i | r <= i < |s| :: IsSpace(s[i])
  {
    l := TrimLeftSplits(s);
    var t := s[l..];
    var k := TrimRightSplits(t);
    r := l + k;
    assert t[..k] == s[l..r];
    forall i | r <= i < |s| ensures IsSpace(s[i]) { assert s[i] == t[i - l]; }
    if l < r { assert s[l..r][0] == t[0]; }
  }

  lemma {:induction false} TrimLeftSplits(s: Bytes) returns (l: nat)
    ensures l <= |s| && TrimLeft(s) == s[l..]
    ensures forall i | 0 <= i < l :: IsSpace(s[i])
    ensures l < |s| ==> !IsSpace(s[l])
  {
    l := 0;
    if s != [] && IsSpace(s[0]) {
      var k := TrimLeftSplits(s[1..]);
      l := k + 1;
      assert s[1..][k..] == s[l..];
      forall i | 0 <= i < l ensures IsSpace(s[i]) { if i > 0 { assert s[i] == s[1..][i - 1]; } }
    }
  }

  lemma {:induction false} TrimRightSplits(s: Bytes) returns (r: nat)
    ensures r <= |s| && TrimRight(s) == s[..r]
    ensures forall i | r <= i < |s| :: IsSpace(s[i])
    ensures r > 0 ==> !IsSpace(s[r - 1])
  {
    r := |s|;
    if s != [] && IsSpace(s[|s| - 1]) {
      var t := s[..|s| - 1];
      r := TrimRightSplits(t);
      assert t[..r] == s[..r];
      forall i | r <= i < |s| ensures IsSpace(s[i]) { if i < |t| { assert t[i] == s[i]; } }
    } else {
      assert s == s[..r];
    }
  }

  lemma TrimmedIsFixed(s: Bytes)
    requires Trimmed(s)
    ensures Trim(s) == s
  {}

  // ---------- fixed-capacity buffers ----------

  function Zeros(n: nat): (r: Bytes)
    ensures |r| == n
  {
    seq(n, _ => 0)
  }

  // The value cut to leave room for a terminator, then zeros.
  function FixedBuffer(value: Bytes, capacity: nat): (r: Bytes)
    requires capacity > 0
    ensures |r| == capacity
  {
    var n := if |value| < capacity then |value| else capacity - 1;
    value[..n] + Zeros(capacity - n)
  }

  // The bytes up to the first zero.
  function UpToNul(buffer: Bytes): Bytes {
    if buffer == [] || buffer[0] == 0 then [] else [buffer[0]] + UpToNul(buffer[1..])
  }

  method WriteFixedUtf8(value: Bytes, out: array<Byte>)
    requires out.Length > 0
    modifies out
    ensures out[..] == FixedBuffer(value, out.Length)
  {
    for i := 0 to out.Length
      invariant forall k | 0 <= k < i :: out[k] == 0
    {
      out[i] := 0;
    }
    var n := if |value| < out.Length then |value| else out.Length - 1;
    for i := 0 to n
      invariant out[..i] == value[..i]
      invariant forall k | i <= k < out.Length :: out[k] == 0
    {
      out[i] := value[i];
    }
  }

  method ReadFixedUtf8(buffer: array<Byte>) returns (value: Bytes)
    ensures value == UpToNul(buffer[..])
  {
    var len := 0;
    while len < buffer.Length && buffer[len] != 0
      invariant len <= buffer.Length && UpToNul(buffer[..]) == buffer[..len] + UpToNul(buffer[len..])
    {
      assert buffer[len..][1..] == buffer[len + 1..];
      len := len + 1;
    }
    value := buffer[..len];
    assert value + [] == value;
  }

  // A value is read back exactly when it fits and holds no zero byte.
  lemma FixedBufferRoundTrip(value: Bytes, capacity: nat)
    requires capacity > 0
    ensures UpToNul(FixedBuffer(value, capacity)) == value <==> |value| < capacity && 0 !in value
  {
    var n := if |value| < capacity then |value| else capacity - 1;
    UpToNulOf(value[..n], Zeros(capacity - n));
    if 0 in value[..n] {
      UpToNulHasNoNul(FixedBuffer(value, capacity));
    }
    if |value| < capacity { assert value[..n] == value; }
  }

  // What is read back of any value: it goes on to the end of the value, to the first zero byte or to
  // the last place before the terminator, whichever comes first.
  lemma BufferShows(value: Bytes, capacity: nat)
    requires capacity > 0
    ensures var shown := UpToNul(FixedBuffer(value, capacity));
            && shown <= value && |shown| < capacity && 0 !in shown
            && (|shown| == |value| || |shown| == capacity - 1 || value[|shown|] == 0)
  {
    var n := if |value| < capacity then |value| else capacity - 1;
    var buffer := FixedBuffer(value, capacity);
    UpToNulOf(value[..n], Zeros(capacity - n));
    UpToNulHasNoNul(buffer);
    UpToNulStops(buffer);
    assert buffer[n] == 0;
    assert forall i | 0 <= i < n :: buffer[i] == value[i];
    assert UpToNul(buffer) <= value[..n];
  }

  lemma {:induction false} UpToNulStops(s: Bytes)
    ensures UpToNul(s) <= s && (|UpToNul(s)| < |s| ==> s[|UpToNul(s)|] == 0)
  {
    if s != [] && s[0] != 0 { UpToNulStops(s[1..]); }
  }

  lemma {:induction false} UpToNulOf(s: Bytes, rest: Bytes)
    requires rest != [] && rest[0] == 0
    ensures 0 !in s ==> UpToNul(s + rest) == s
    ensures |UpToNul(s + rest)| <= |s|
  {
    if s != [] {
      assert (s + rest)[1..] == s[1..] + rest;
      UpToNulOf(s[1..], rest);
      assert s == [s[0]] + s[1..];
    }
  }

  lemma {:induction false} UpToNulHasNoNul(s: Bytes)
    ensures 0 !in UpToNul(s)
  {
    if s != [] && s[0] != 0 { UpToNulHasNoNul(s[1..]); }
  }
}
