/** What the byte buffers of src/buffer.c mean: a buffer as a value, its operations as functions
    on it, and the serialisation round trip. */
module BufferModel {
  newtype byte = b: int | 0 <= b < 256

  /** s_Buffer; `data` has two bytes more than `size`. */
  datatype Buf = Buf(size: nat, data: seq<byte>, position: int, limit: int)

  function Zeros(n: nat): (s: seq<byte>)
    ensures |s| == n && forall i :: 0 <= i < n ==> s[i] == 0
  {
    seq(n, _ => 0)
  }

  function NewBuf(size: nat): Buf {
    Buf(size, Zeros(size + 2), 0, size)
  }

  /** What holds of every buffer, whatever was done to it: both marks are within the capacity
      and the two bytes past it are zero. The position may lie beyond the limit. */
  predicate Sound(b: Buf) {
    && |b.data| == b.size + 2
    && 0 <= b.position <= b.size && 0 <= b.limit <= b.size
    && b.data[b.size] == 0 && b.data[b.size + 1] == 0
  }

  function Flip(b: Buf): Buf {
    b.(limit := b.position, position := 0)
  }

  /** BufferPosition; false is the result NULL. */
  function SetPosition(b: Buf, position: int): (Buf, bool) {
    if position > b.limit then (b, false) else (b.(position := position), true)
  }

  function SetLimit(b: Buf, limit: int): (Buf, bool) {
    if limit > b.size then (b, false) else (b.(limit := limit), true)
  }

  /** memcpy into `data` at `at`. */
  function Overwrite(data: seq<byte>, at: nat, bytes: seq<byte>): (r: seq<byte>)
    requires at + |bytes| <= |data|
    ensures |r| == |data|
  {
    data[..at] + bytes + data[at + |bytes|..]
  }

  function Reset(b: Buf): Buf
    requires |b.data| >= b.size
  {
    b.(data := Overwrite(b.data, 0, Zeros(b.size)), position := 0, limit := b.size)
  }

  predicate HasRemaining(b: Buf) {
    b.position < b.limit
  }

  /** The bytes between position and limit. */
  function Content(b: Buf): seq<byte>
    requires Sound(b)
  {
    if b.position <= b.limit then b.data[b.position..b.limit] else []
  }

  function Copy(dst: Buf, src: Buf): Buf
    requires Sound(dst) && Sound(src) && src.position <= src.limit && src.limit - src.position <= dst.size
  {
    var r := Reset(dst);
    SetLimit(r.(data := Overwrite(r.data, 0, Content(src))), src.limit - src.position).0
  }

  /** BufferGet: the bytes read, or false on underflow. */
  function Get(b: Buf, size: nat): (Buf, bool, seq<byte>)
    requires Sound(b)
  {
    if b.position + size > b.limit then (b, false, [])
    else (b.(position := b.position + size), true, b.data[b.position..b.position + size])
  }

  function Put(b: Buf, bytes: seq<byte>): (Buf, bool)
    requires Sound(b)
  {
    if b.position + |bytes| > b.limit then (b, false)
    else (b.(data := Overwrite(b.data, b.position, bytes), position := b.position + |bytes|), true)
  }

  /** BufferGet succeeds exactly if that much is left before the limit, gives those bytes and moves
      past them; refused, it gives and changes nothing. */
  lemma GetTakes(b: Buf, size: nat)
    requires Sound(b)
    ensures var (b', ok, bytes) := Get(b, size);
      && (ok <==> b.position + size <= b.limit)
      && (ok ==> |bytes| == size && b'.position == b.position + size
                 && forall i :: 0 <= i < size ==> bytes[i] == b.data[b.position + i])
      && b' == b.(position := b'.position) && (!ok ==> bytes == [] && b'.position == b.position)
  {
  }

  /** BufferPut likewise: the bytes go where the position was, and nothing else changes. */
  lemma PutPlaces(b: Buf, bytes: seq<byte>)
    requires Sound(b)
    ensures var (b', ok) := Put(b, bytes);
      && (ok <==> b.position + |bytes| <= b.limit)
      && (ok ==> b'.position == b.position + |bytes| && |b'.data| == |b.data|
                 && (forall i :: 0 <= i < |bytes| ==> b'.data[b.position + i] == bytes[i])
                 && forall i :: 0 <= i < |b.data| && !(b.position <= i < b'.position) ==> b'.data[i] == b.data[i])
      && (!ok ==> b' == b) && b'.limit == b.limit && b'.size == b.size
  {
  }

  predicate NoNul(s: seq<byte>) {
    forall i :: 0 <= i < |s| ==> s[i] != 0
  }

  /** Index of the first zero byte from `from` on; strlen scans no further. */
  function NulFrom(data: seq<byte>, from: nat): (k: nat)
    requires exists i :: from <= i < |data| && data[i] == 0
    ensures from <= k < |data| && data[k] == 0
    ensures forall i :: from <= i < k ==> data[i] != 0
    decreases |data| - from
  {
    if data[from] == 0 then from else NulFrom(data, from + 1)
  }

  /** The C string that starts at `from`. */
  function CString(data: seq<byte>, from: nat): (s: seq<byte>)
    requires exists i :: from <= i < |data| && data[i] == 0
    ensures NoNul(s)
  {
    data[from..NulFrom(data, from)]
  }

  /** BufferGetString: the returned pointer is to the old position, so the string is what is
      there after the two terminating zeros may have been written. */
  function GetString(b: Buf): (r: (Buf, seq<byte>))
    requires Sound(b)
    ensures Sound(r.0) && r.0.position <= r.0.limit == b.limit && r.0.size == b.size
  {
    assert b.data[b.size] == 0;
    var len := NulFrom(b.data, b.position) + 1 - b.position;
    if len > b.limit - b.position then
      var data := b.data[b.limit := 0][b.limit + 1 := 0];
      assert data[b.size] == 0;
      (b.(data := data, position := b.limit), CString(data, b.position))
    else
      (b.(position := b.position + len), CString(b.data, b.position))
  }

  /** The string ends before the first zero at or after the position. If that comes before the limit it is
      consumed and nothing is written; else two zeros are written at the limit, and the position goes there. */
  lemma GetStringExactly(b: Buf)
    requires Sound(b)
    ensures var (b', s) := GetString(b); var end := b.position + |s|;
      var cut := forall i :: b.position <= i < b.limit ==> b.data[i] != 0;
      && b'.limit == b.limit && b'.size == b.size && |b'.data| == |b.data|
      && (forall i :: 0 <= i < |b.data| ==>
            b'.data[i] == if cut && b.limit <= i <= b.limit + 1 then 0 else b.data[i])
      && b'.position == (if cut then b.limit else end + 1)
      && end < |b.data| && NoNul(s) && s == b'.data[b.position..end] && b'.data[end] == 0
  {
    assert b.data[b.size] == 0;
    var nul := NulFrom(b.data, b.position);
    var data := b.data[b.limit := 0][b.limit + 1 := 0];
    assert data[b.size] == 0;
    if nul >= b.limit {
      assert forall i :: b.position <= i < b.limit ==> b.data[i] != 0;
    } else {
      assert b.data[nul] == 0;
    }
  }

  /** BufferPutString of a string without the terminator: memchr looks for that in the room left. */
  function PutString(b: Buf, s: seq<byte>): (Buf, bool)
    requires Sound(b) && b.position <= b.limit && NoNul(s)
  {
    if |s| >= b.limit - b.position then (b, false)
    else (b.(data := Overwrite(b.data, b.position, s + [0]), position := b.position + |s| + 1), true)
  }

  // ---------------------------------------------------------------- every reachable buffer

  datatype Op =
    | DoFlip | DoPosition(p: nat) | DoLimit(l: nat) | DoReset | DoCopy(src: Buf)
    | DoGet(n: nat) | DoPut(bytes: seq<byte>) | DoGetString | DoPutString(s: seq<byte>)

  /** What the source demands of a caller. */
  predicate Allowed(b: Buf, op: Op)
    requires Sound(b)
  {
    match op
    case DoCopy(src) => Sound(src) && src.position <= src.limit && src.limit - src.position <= b.size
    case DoPutString(s) => b.position <= b.limit && NoNul(s)
    case _ => true
  }

  function Apply(b: Buf, op: Op): Buf
    requires Sound(b) && Allowed(b, op)
  {
    match op
    case DoFlip => Flip(b)
    case DoPosition(p) => SetPosition(b, p).0
    case DoLimit(l) => SetLimit(b, l).0
    case DoReset => Reset(b)
    case DoCopy(src) => Copy(b, src)
    case DoGet(n) => Get(b, n).0
    case DoPut(bytes) => Put(b, bytes).0
    case DoGetString => GetString(b).0
    case DoPutString(s) => PutString(b, s).0
  }

  /** Every operation keeps a buffer sound: BufferGetString always finds a terminator inside the
      array, and nothing is written past it. */
  lemma OpsKeepSound(b: Buf, op: Op)
    requires Sound(b) && Allowed(b, op)
    ensures Sound(Apply(b, op)) && Apply(b, op).size == b.size
  {
  }

  /** A copy holds the source's remaining bytes, from position 0 up to its limit. */
  lemma CopyTakesContent(dst: Buf, src: Buf)
    requires Sound(dst) && Allowed(dst, DoCopy(src))
    ensures Sound(Copy(dst, src)) && Copy(dst, src).position == 0 && Content(Copy(dst, src)) == Content(src)
  {
  }

  /** The documented results of BufferGetString while position <= limit: the bytes up to the first
      zero, which is consumed, or all remaining bytes. */
  lemma GetStringReadsRemaining(b: Buf)
    requires Sound(b) && b.position <= b.limit
    ensures var (b', s) := GetString(b);
      if exists i :: b.position <= i < b.limit && b.data[i] == 0
      then b'.data == b.data && s + [0] == b.data[b.position..b'.position]
      else s == Content(b) && b'.position == b.limit
  {
    assert b.data[b.size] == 0;
    var nul := NulFrom(b.data, b.position);
    if nul >= b.limit {
      var data := b.data[b.limit := 0][b.limit + 1 := 0];
      assert data[b.position..b.limit] == b.data[b.position..b.limit];
      assert data[b.limit] == 0;
    }
  }

  /** With nothing remaining the documentation promises the empty string. That holds exactly when
      the position is at most one past the limit, or the byte there happens to be zero. */
  lemma GetStringEmptyExactlyWhen(b: Buf)
    requires Sound(b) && !HasRemaining(b)
    ensures GetString(b).1 == [] <==> b.position <= b.limit + 1 || b.data[b.position] == 0
  {
    assert b.data[b.size] == 0;
    var data := b.data[b.limit := 0][b.limit + 1 := 0];
    assert data[b.size] == 0;
    assert GetString(b).1 == CString(data, b.position);
  }

  function Run(b: Buf, ops: seq<Op>): Buf
    requires Sound(b) && Legal(b, ops)
    decreases |ops|
  {
    if ops == [] then b else Run(Apply(b, ops[0]), ops[1..])
  }

  /** Every operation of the run is allowed where it happens. */
  predicate Legal(b: Buf, ops: seq<Op>)
    requires Sound(b)
    decreases |ops|
  {
    ops == [] ||
    (Allowed(b, ops[0]) && (OpsKeepSound(b, ops[0]); Legal(Apply(b, ops[0]), ops[1..])))
  }

  /** Whatever is done to a new buffer, it stays sound. */
  lemma {:induction false} RunsKeepSound(b: Buf, ops: seq<Op>)
    requires Sound(b) && Legal(b, ops)
    ensures Sound(Run(b, ops)) && Run(b, ops).size == b.size
    decreases |ops|
  {
    if ops != [] {
      OpsKeepSound(b, ops[0]);
      RunsKeepSound(Apply(b, ops[0]), ops[1..]);
    }
  }

  /** A run in which that fails: put "abc", go back to 2, lower the limit to 0; the next string
      read is the stale "c". */
  lemma GetStringCanBeStale()
    ensures var ops := [DoPut([97, 98, 99]), DoPosition(2), DoLimit(0)];
      && Legal(NewBuf(3), ops)
      && Sound(Run(NewBuf(3), ops)) && !HasRemaining(Run(NewBuf(3), ops))
      && GetString(Run(NewBuf(3), ops)).1 != []
  {
    var b0 := NewBuf(3);
    var b1 := Apply(b0, DoPut([97, 98, 99]));
    assert b1.data == [97, 98, 99, 0, 0];
    var b2 := Apply(b1, DoPosition(2));
    var b3 := Apply(b2, DoLimit(0));
    assert b3 == Buf(3, [97, 98, 99, 0, 0], 2, 0);
    var ops := [DoPut([97, 98, 99]), DoPosition(2), DoLimit(0)];
    assert ops[1..] == [DoPosition(2), DoLimit(0)] && ops[1..][1..] == [DoLimit(0)] && ops[1..][1..][1..] == [];
    assert Run(b0, ops) == Run(b1, ops[1..]) == Run(b2, ops[1..][1..]) == b3;
    GetStringEmptyExactlyWhen(b3);
  }

  // ---------------------------------------------------------------- serialisation

  datatype Value = Block(bytes: seq<byte>) | Text(chars: seq<byte>)

  /** Texts are C strings: no zero inside. */
  predicate Writable(v: Value) {
    v.Text? ==> NoNul(v.chars)
  }

  function Encode(v: Value): seq<byte> {
    match v
    case Block(bytes) => bytes
    case Text(chars) => chars + [0]
  }

  function EncodeAll(vs: seq<Value>): seq<byte> {
    if vs == [] then [] else Encode(vs[0]) + EncodeAll(vs[1..])
  }

  ghost predicate AllWritable(vs: seq<Value>) {
    forall i :: 0 <= i < |vs| ==> Writable(vs[i])
  }

  /** Puts one value with BufferPut or BufferPutString. */
  function PutValue(b: Buf, v: Value): (Buf, bool)
    requires Sound(b) && b.position <= b.limit && Writable(v)
  {
    match v
    case Block(bytes) => Put(b, bytes)
    case Text(chars) => PutString(b, chars)
  }

  /** Puts values in turn until one is refused. */
  ghost function PutAll(b: Buf, vs: seq<Value>): (Buf, bool)
    requires Sound(b) && b.position <= b.limit && AllWritable(vs)
    decreases |vs|
  {
    if vs == [] then (b, true)
    else
      var (b', ok) := PutValue(b, vs[0]);
      if ok then PutAll(b', vs[1..]) else (b', false)
  }

  /** Reads one value of the kind and, for a block, the length of `like`. */
  function GetValue(b: Buf, like: Value): (Buf, bool, Value)
    requires Sound(b)
  {
    match like
    case Block(bytes) => var (b', ok, r) := Get(b, |bytes|); (b', ok, Block(r))
    case Text(_) => var (b', r) := GetString(b); (b', true, Text(r))
  }

  function GetAll(b: Buf, like: seq<Value>): (Buf, bool, seq<Value>)
    requires Sound(b)
    decreases |like|
  {
    if like == [] then (b, true, [])
    else
      var (b', ok, v) := GetValue(b, like[0]);
      if !ok then (b', false, [])
      else
        var (end, rest, vs) := GetAll(b', like[1..]);
        (end, rest, [v] + vs)
  }

  /** Bytes were appended at the position: exactly if they fit, right there, and nothing else. */
  ghost predicate Appends(b: Buf, r: (Buf, bool), e: seq<byte>)
    requires Sound(b)
  {
    && (r.1 <==> b.position + |e| <= b.limit)
    && (r.1 ==> r.0 == b.(data := Overwrite(b.data, b.position, e), position := b.position + |e|) && Sound(r.0))
  }

  /** One put appends the value's encoding, or changes nothing. */
  lemma PutValueAppends(b: Buf, v: Value)
    requires Sound(b) && b.position <= b.limit && Writable(v)
    ensures Appends(b, PutValue(b, v), Encode(v)) && (!PutValue(b, v).1 ==> PutValue(b, v).0 == b)
  {
  }

  lemma OverwriteTwice(data: seq<byte>, at: nat, a: seq<byte>, b: seq<byte>)
    requires at + |a| + |b| <= |data|
    ensures Overwrite(Overwrite(data, at, a), at + |a|, b) == Overwrite(data, at, a + b)
  {
  }

  lemma OverwriteNothing(data: seq<byte>, at: nat)
    requires at <= |data|
    ensures Overwrite(data, at, []) == data
  {
  }

  lemma SliceSplit(data: seq<byte>, at: nat, a: seq<byte>, b: seq<byte>)
    requires at + |a| + |b| <= |data| && data[at..at + |a| + |b|] == a + b
    ensures data[at..at + |a|] == a && data[at + |a|..at + |a| + |b|] == b
  {
    var all := data[at..at + |a| + |b|];
    assert data[at..at + |a|] == all[..|a|] && data[at + |a|..at + |a| + |b|] == all[|a|..];
  }

  lemma AppendsTwice(b: Buf, first: (Buf, bool), e: seq<byte>, second: (Buf, bool), rest: seq<byte>)
    requires Sound(b) && b.position <= b.limit && Appends(b, first, e)
    requires first.1 ==> Sound(first.0) && Appends(first.0, second, rest)
    ensures Appends(b, if first.1 then second else (first.0, false), e + rest)
  {
    hide Overwrite;
    if first.1 && second.1 {
      OverwriteTwice(b.data, b.position, e, rest);
    }
  }

  lemma AppendsIs(b: Buf, r: (Buf, bool), e: seq<byte>)
    requires Sound(b) && Appends(b, r, e)
    ensures r.1 ==> Sound(r.0) && r.0.position <= r.0.limit
  {
  }

  /** A list of values is written exactly when its encoding fits, right behind one another. */
  lemma {:induction false} PutAllAppends(b: Buf, vs: seq<Value>)
    requires Sound(b) && b.position <= b.limit && AllWritable(vs)
    ensures Appends(b, PutAll(b, vs), EncodeAll(vs))
    decreases |vs|
  {
    hide Overwrite, PutValue, Encode, Appends, Sound;
    if vs != [] {
      var first := PutValue(b, vs[0]);
      PutValueAppends(b, vs[0]);
      AppendsIs(b, first, Encode(vs[0]));
      if first.1 {
        PutAllAppends(first.0, vs[1..]);
        AppendsTwice(b, first, Encode(vs[0]), PutAll(first.0, vs[1..]), EncodeAll(vs[1..]));
      } else {
        AppendsTwice(b, first, Encode(vs[0]), first, EncodeAll(vs[1..]));
      }
    } else {
      AppendsNothing(b);
    }
  }

  lemma AppendsNothing(b: Buf)
    requires Sound(b) && b.position <= b.limit
    ensures Appends(b, (b, true), [])
  {
    OverwriteNothing(b.data, b.position);
  }

  /** Reading at the start of a value's encoding gives the value back and moves past it. */
  lemma GetValueReads(b: Buf, v: Value)
    requires Sound(b) && Writable(v) && b.position + |Encode(v)| <= b.limit
    requires b.data[b.position..b.position + |Encode(v)|] == Encode(v)
    ensures GetValue(b, v) == (b.(position := b.position + |Encode(v)|), true, v)
  {
    if v.Text? {
      var end := b.position + |v.chars|;
      assert Encode(v)[|v.chars|] == 0;
      assert b.data[end] == 0;
      assert forall i :: b.position <= i < end ==> b.data[i] == Encode(v)[i - b.position] != 0;
      assert NulFrom(b.data, b.position) == end;
      assert b.data[b.position..end] == Encode(v)[..|v.chars|] == v.chars;
    }
  }

  lemma {:induction false} GetAllReads(b: Buf, vs: seq<Value>)
    requires Sound(b) && AllWritable(vs) && b.position + |EncodeAll(vs)| <= b.limit
    requires b.data[b.position..b.position + |EncodeAll(vs)|] == EncodeAll(vs)
    ensures GetAll(b, vs) == (b.(position := b.position + |EncodeAll(vs)|), true, vs)
    decreases |vs|
  {
    hide GetValue, Encode;
    if vs != [] {
      var e, rest := Encode(vs[0]), EncodeAll(vs[1..]);
      SliceSplit(b.data, b.position, e, rest);
      GetValueReads(b, vs[0]);
      GetAllReads(b.(position := b.position + |e|), vs[1..]);
      assert [vs[0]] + vs[1..] == vs;
    }
  }

  /** Round trip: whatever fits is written, and after a flip the matching gets return the same
      values and end at the limit. */
  lemma SerialisationRoundTrip(b: Buf, vs: seq<Value>)
    requires Sound(b) && b.position == 0 && AllWritable(vs)
    ensures PutAll(b, vs).1 <==> |EncodeAll(vs)| <= b.limit
    ensures PutAll(b, vs).1 ==>
      var w := Flip(PutAll(b, vs).0);
      && Sound(w)
      && var (r, ok, back) := GetAll(w, vs);
         ok && back == vs && r.position == r.limit
  {
    PutAllAppends(b, vs);
    if PutAll(b, vs).1 {
      GetAllReads(Flip(PutAll(b, vs).0), vs);
    }
  }
}
