/** CmpQueryNameInformation: the full path of a registry key, written backwards while walking up its
    parents. */
module KeyPath {

  type Byte = n: nat | n < 0x100
  type WChar = n: nat | n < 0x1_0000

  const SEPARATOR: WChar := 0x5C
  const HEADER: nat := 4          // offset of Name in KEY_NAME_INFORMATION

  /** A name block: one byte per character if compressed, else two. NameLength is a USHORT. */
  datatype Name = Compressed(bytes: seq<Byte>) | Raw(chars: seq<WChar>)

  predicate ShortName(n: Name) {
    match n
    case Compressed(bytes) => |bytes| < 0x1_0000
    case Raw(chars) => 2 * |chars| < 0x1_0000
  }

  /** A key and its parents up to the root. */
  datatype Kcb = NoKey | Key(name: Name, parent: Kcb)

  ghost predicate ShortNames(k: Kcb) {
    k.Key? ==> ShortName(k.name) && ShortNames(k.parent)
  }

  /** Bytes the name takes in the path; for a compressed name the size is a USHORT too. */
  function NameSize(n: Name): (size: nat)
    ensures size % 2 == 0
  {
    match n
    case Compressed(bytes) => 2 * |bytes| % 0x1_0000
    case Raw(chars) => 2 * |chars|
  }

  /** The characters that end up in the path. */
  function Text(n: Name): (s: seq<WChar>)
    ensures |s| == NameSize(n) / 2
  {
    match n
    case Compressed(bytes) => seq(NameSize(n) / 2, i requires 0 <= i < NameSize(n) / 2 => bytes[i])
    case Raw(chars) => chars
  }

  /** The path from the root down, each name behind a separator. */
  function Path(k: Kcb): (s: seq<WChar>) {
    if k.NoKey? then [] else Path(k.parent) + ([SEPARATOR] + Text(k.name))
  }

  datatype Status = Success | BufferTooSmall | BufferOverflow

  /** The first pass. */
  method CountLength(k: Kcb) returns (needed: nat)
    ensures needed == 2 * |Path(k)|
  {
    needed := 0;
    var current := k;
    while current.Key?
      invariant needed + 2 * |Path(current)| == 2 * |Path(k)|
      decreases current
    {
      needed := needed + NameSize(current.name) + 2;
      current := current.parent;
    }
  }

  /** Copies a name to its place. */
  method CopyName(buffer: array<WChar>, at: nat, n: Name)
    requires at + |Text(n)| <= buffer.Length
    modifies buffer
    ensures buffer[..] == old(buffer[..at]) + Text(n) + old(buffer[at + |Text(n)|..])
  {
    hide Text;
    var text, i := Text(n), 0;
    while i < |text|
      invariant i <= |text|
      invariant forall j :: 0 <= j < buffer.Length ==>
                  buffer[j] == if at <= j < at + i then text[j - at] else old(buffer[j])
    {
      buffer[at + i] := text[i];
      i := i + 1;
    }
  }

  /** One round of the second pass: the name, then the separator in front of it. */
  method WriteName(buffer: array<WChar>, at: nat, n: Name)
    requires at + 1 + |Text(n)| <= buffer.Length
    modifies buffer
    ensures buffer[..] == old(buffer[..at]) + ([SEPARATOR] + Text(n)) + old(buffer[at + 1 + |Text(n)|..])
  {
    hide Text;
    ghost var b := buffer[..];
    CopyName(buffer, at + 1, n);
    PutSeparator(b, at, Text(n));
    buffer[at] := SEPARATOR;
  }

  lemma PutSeparator(b: seq<WChar>, at: nat, text: seq<WChar>)
    requires at + 1 + |text| <= |b|
    ensures var rest := b[at + 1 + |text|..];
            (b[..at + 1] + text + rest)[at := SEPARATOR] == b[..at] + ([SEPARATOR] + text) + rest
  {
  }

  /** From `from` on the buffer holds the path, and elsewhere what it held before. */
  ghost predicate Filled(b: seq<WChar>, b0: seq<WChar>, path: seq<WChar>, from: nat) {
    |b| == |b0| >= |path| >= from && b == b0[..from] + path[from..] + b0[|path|..]
  }

  lemma FilledFurther(b: seq<WChar>, b0: seq<WChar>, path: seq<WChar>, at: nat, piece: seq<WChar>)
    requires at + |piece| <= |path| && Filled(b, b0, path, at + |piece|) && path[at..at + |piece|] == piece
    ensures Filled(b[..at] + piece + b[at + |piece|..], b0, path, at)
  {
  }

  lemma PathStep(k: Kcb, path: seq<WChar>)
    requires k.Key? && |Path(k)| <= |path| && Path(k) == path[..|Path(k)|]
    ensures var at := |Path(k.parent)|;
            && |Path(k)| == at + 1 + |Text(k.name)| && Path(k.parent) == path[..at]
            && path[at..at + 1 + |Text(k.name)|] == [SEPARATOR] + Text(k.name)
  {
    hide Text;
    var front, piece := Path(k.parent), [SEPARATOR] + Text(k.name);
    assert Path(k) == front + piece;
    PrefixSplits(front, piece, path);
  }

  lemma PrefixSplits(front: seq<WChar>, piece: seq<WChar>, path: seq<WChar>)
    requires |front + piece| <= |path| && front + piece == path[..|front + piece|]
    ensures front == path[..|front|] && path[|front|..|front| + |piece|] == piece
  {
  }

  /** The second pass, which starts from the length the first one found. */
  method WritePath(k: Kcb, buffer: array<WChar>, length: nat) returns (needed: nat, nameLength: nat)
    requires |Path(k)| <= buffer.Length && length == 2 * |Path(k)|
    modifies buffer
    ensures needed == 0 && nameLength == 2 * |Path(k)| && buffer[..] == Path(k) + old(buffer[|Path(k)|..])
  {
    hide Filled, Text, NameSize;
    ghost var path, b0 := Path(k), buffer[..];
    needed, nameLength := length, 0;
    var current := k;
    FilledStart(b0, path);
    while current.Key?
      invariant needed == 2 * |Path(current)| && |Path(current)| <= |path| && nameLength + needed == 2 * |path|
      invariant Path(current) == path[..|Path(current)|] && Filled(buffer[..], b0, path, |Path(current)|)
      decreases current
    {
      PathStep(current, path);
      ghost var b := buffer[..];
      var size := NameSize(current.name);
      FilledFurther(b, b0, path, |Path(current.parent)|, [SEPARATOR] + Text(current.name));
      var at := (needed - size) / 2 - 1;
      assert at == |Path(current.parent)| && at + 1 + |Text(current.name)| == |Path(current)|;
      WriteName(buffer, at, current.name);
      needed := needed - size - 2;
      nameLength := nameLength + size + 2;
      current := current.parent;
    }
    FilledEnd(buffer[..], b0, path);
  }

  lemma FilledStart(b0: seq<WChar>, path: seq<WChar>)
    requires |path| <= |b0|
    ensures Filled(b0, b0, path, |path|)
  {
  }

  lemma FilledEnd(b: seq<WChar>, b0: seq<WChar>, path: seq<WChar>)
    requires Filled(b, b0, path, 0)
    ensures |path| <= |b0| && b == path + b0[|path|..]
  {
  }

  /** CmpQueryNameInformation: the length is always reported; the path is written when the buffer
      can take all of it, and then fills exactly its front. */
  method QueryNameInformation(k: Kcb, length: nat, buffer: array<WChar>)
    returns (status: Status, resultLength: nat, nameLength: nat)
    requires ShortNames(k) && HEADER + 2 * |Path(k)| < 0x1_0000_0000
    requires length >= HEADER ==> HEADER + 2 * buffer.Length <= length < HEADER + 2 * buffer.Length + 2
    modifies buffer
    ensures resultLength == HEADER + 2 * |Path(k)|
    ensures status == BufferTooSmall <==> length < HEADER
    ensures status == BufferOverflow <==> HEADER <= length < resultLength
    ensures status != BufferTooSmall ==> nameLength == 2 * |Path(k)|
    ensures status != Success ==> buffer[..] == old(buffer[..])
    ensures status == Success ==> |Path(k)| <= buffer.Length && buffer[..] == Path(k) + old(buffer[|Path(k)|..])
  {
    var needed := CountLength(k);
    resultLength, nameLength := HEADER + needed, 0;
    if length < HEADER {
      return BufferTooSmall, resultLength, nameLength;
    }
    if length < resultLength {
      return BufferOverflow, resultLength, needed;
    }
    needed, nameLength := WritePath(k, buffer, needed);
    status := Success;
  }

  /** Every character of every name is in the path exactly when no compressed name is longer than
      a USHORT can say in bytes. */
  lemma TextIsWhole(n: Name)
    requires ShortName(n)
    ensures n.Raw? ==> Text(n) == n.chars
    ensures n.Compressed? ==> (|Text(n)| == |n.bytes| <==> |n.bytes| < 0x8000)
    ensures forall i :: 0 <= i < |Text(n)| ==> Text(n)[i] == if n.Raw? then n.chars[i] else n.bytes[i]
  {
  }
}
