/** The varint and byte fields of identity queries: `varint` and `protobuf_fields`. */
module Protobuf {
  import opened Wrappers
  import opened Leb128

  datatype Content = Varint(value: nat) | Blob(bytes: seq<Byte>)

  /** Numbers are read from at most ten bytes. */
  const MAX_GROUPS: nat := 10
  const LIMIT: nat := 0x40_0000_0000_0000_0000

  // ---------------------------------------------------------------- what the decoder means

  /** A field's key and content from the front, and what follows. */
  function TakeField(s: seq<Byte>): (r: Option<(nat, Content, seq<Byte>)>)
    ensures r.Some? ==> |r.value.2| < |s| && r.value.0 > 0
  {
    var key := ReadVar(s, MAX_GROUPS);
    if !key.Value? || key.value / 8 == 0 then None
    else
      var rest := s[key.used..];
      var n := ReadVar(rest, MAX_GROUPS);
      if key.value % 8 == 0 && n.Value? then Some((key.value / 8, Varint(n.value), rest[n.used..]))
      else if key.value % 8 == 2 && n.Value? && n.value <= |rest| - n.used then
        Some((key.value / 8, Blob(rest[n.used..n.used + n.value]), rest[n.used + n.value..]))
      else None
  }

  /** The fields of a message; of a repeated number the last one stays. */
  function Fields(s: seq<Byte>, found: map<nat, Content>): Option<map<nat, Content>>
    decreases |s|
  {
    if s == [] then Some(found)
    else
      var f := TakeField(s);
      if f.None? then None else Fields(f.value.2, found[f.value.0 := f.value.1])
  }

  // ---------------------------------------------------------------- the decoder

  /** The inner `read_varint`, from a position. */
  method ReadVarint(raw: seq<Byte>, start: nat) returns (r: Option<(nat, nat)>)
    requires start <= |raw|
    ensures var v := ReadVar(raw[start..], MAX_GROUPS);
            r.Some? == v.Value? && (r.Some? ==> r.value == (v.value, start + v.used))
  {
    hide ReadsOn, ReadVar;
    var value: nat, weight: nat, pos := 0, 1, start;
    ghost var all := raw[start..];
    ReadsStart(all, MAX_GROUPS);
    for index := 0 to MAX_GROUPS
      invariant pos == start + index <= |raw|
      invariant ReadsOn(all, MAX_GROUPS, index, value, weight)
    {
      if pos >= |raw| {
        ReadsEnd(all, MAX_GROUPS, value, weight);
        return None;
      }
      var byte := raw[pos];
      pos := pos + 1;
      if byte < 128 {
        ReadsLast(all, MAX_GROUPS, index, value, weight);
      } else {
        ReadsMore(all, MAX_GROUPS, index, value, weight);
      }
      value := value + byte % 128 * weight;
      weight := weight * 128;
      if byte < 128 {
        return Some((value, pos));
      }
    }
    ReadsTooFar(all, MAX_GROUPS, value, weight);
    return None;
  }

  /** A field by its wire type. */
  lemma FieldCases(s: seq<Byte>)
    ensures var key := ReadVar(s, MAX_GROUPS);
            && (!key.Value? || key.value / 8 == 0 ==> TakeField(s).None?)
            && (key.Value? && key.value / 8 != 0 ==>
                  var rest := s[key.used..];
                  var n := ReadVar(rest, MAX_GROUPS);
                  && ((key.value % 8 != 0 && key.value % 8 != 2) || !n.Value? ==> TakeField(s).None?)
                  && (key.value % 8 == 0 && n.Value? ==>
                        TakeField(s) == Some((key.value / 8, Varint(n.value), rest[n.used..])))
                  && (key.value % 8 == 2 && n.Value? && n.value > |rest| - n.used ==> TakeField(s).None?)
                  && (key.value % 8 == 2 && n.Value? && n.value <= |rest| - n.used ==>
                        TakeField(s) == Some((key.value / 8, Blob(rest[n.used..n.used + n.value]),
                                              rest[n.used + n.value..]))))
  {
    hide ReadVar;
  }

  /** `protobuf_fields`: a total decoder. */
  method ProtobufFields(raw: seq<Byte>) returns (r: Option<map<nat, Content>>)
    ensures r == Fields(raw, map[])
  {
    hide ReadVar, TakeField;
    var pos, fields: map<nat, Content> := 0, map[];
    assert raw[0..] == raw;
    while pos < |raw|
      invariant pos <= |raw|
      invariant Fields(raw, map[]) == Fields(raw[pos..], fields)
    {
      ghost var s := raw[pos..];
      FieldCases(s);
      var key := ReadVarint(raw, pos);
      if key.None? {
        return None;
      }
      var number, wire := key.value.0 / 8, key.value.0 % 8;
      var next := key.value.1;
      assert raw[next..] == s[next - pos..];
      if number == 0 {
        return None;
      }
      var content: Content;
      if wire == 0 {
        var n := ReadVarint(raw, next);
        if n.None? {
          return None;
        }
        content := Varint(n.value.0);
        assert raw[n.value.1..] == raw[next..][n.value.1 - next..];
        next := n.value.1;
      } else if wire == 2 {
        var n := ReadVarint(raw, next);
        if n.None? || n.value.0 > |raw| - n.value.1 {
          return None;
        }
        var end := n.value.1 + n.value.0;
        content := Blob(raw[n.value.1..end]);
        assert raw[n.value.1..end] == raw[next..][n.value.1 - next..end - next]
               && raw[end..] == raw[next..][end - next..];
        next := end;
      } else {
        return None;
      }
      assert TakeField(s) == Some((number, content, raw[next..]));
      pos, fields := next, fields[number := content];
    }
    assert raw[pos..] == [];
    return Some(fields);
  }

  // ---------------------------------------------------------------- the encoder and the round trip

  datatype Field = Field(number: nat, content: Content)

  function Wire(c: Content): nat { if c.Varint? then 0 else 2 }

  function PrintField(f: Field): seq<Byte> {
    Leb(8 * f.number + Wire(f.content))
    + match f.content
      case Varint(v) => Leb(v)
      case Blob(b) => Leb(|b|) + b
  }

  function PrintFields(fields: seq<Field>): seq<Byte> {
    if fields == [] then [] else PrintField(fields[0]) + PrintFields(fields[1..])
  }

  predicate FieldFits(f: Field) {
    && f.number >= 1 && 8 * f.number + Wire(f.content) < LIMIT
    && match f.content
       case Varint(v) => v < LIMIT
       case Blob(b) => |b| < LIMIT
  }

  /** The map in which later fields replace earlier ones. */
  function LastWins(fields: seq<Field>, found: map<nat, Content>): map<nat, Content> {
    if fields == [] then found else LastWins(fields[1..], found[fields[0].number := fields[0].content])
  }

  /** Independently of the order of updates: a number maps to the content of its last field. */
  lemma {:induction false} LastWinsMeans(fields: seq<Field>, found: map<nat, Content>, n: nat)
    ensures (exists i :: 0 <= i < |fields| && fields[i].number == n) ==>
              exists i :: 0 <= i < |fields| && fields[i].number == n
                       && (forall k :: i < k < |fields| ==> fields[k].number != n)
                       && n in LastWins(fields, found) && LastWins(fields, found)[n] == fields[i].content
    ensures (forall i :: 0 <= i < |fields| ==> fields[i].number != n) ==>
              (n in LastWins(fields, found) <==> n in found)
              && (n in found ==> LastWins(fields, found)[n] == found[n])
    decreases |fields|
  {
    if fields != [] {
      var rest, more := fields[1..], found[fields[0].number := fields[0].content];
      LastWinsMeans(rest, more, n);
      if k :| 0 <= k < |rest| && rest[k].number == n {
        var i :| 0 <= i < |rest| && rest[i].number == n && (forall k :: i < k < |rest| ==> rest[k].number != n)
                 && n in LastWins(rest, more) && LastWins(rest, more)[n] == rest[i].content;
        assert fields[i + 1].number == n && fields[i + 1] == rest[i];
        assert forall k :: i + 1 < k < |fields| ==> fields[k] == rest[k - 1];
      } else {
        assert forall k :: 1 <= k < |fields| ==> fields[k] == rest[k - 1];
        if fields[0].number == n {
          assert LastWins(fields, found)[n] == fields[0].content;
        }
      }
    }
  }

  lemma NumberBack(n: nat, rest: seq<Byte>)
    requires n < LIMIT
    ensures ReadVar(Leb(n) + rest, MAX_GROUPS) == Value(n, |Leb(n)|)
    ensures (Leb(n) + rest)[|Leb(n)|..] == rest
  {
    Powers();
    ReadBack(n, rest, MAX_GROUPS);
  }

  lemma FieldBack(f: Field, rest: seq<Byte>)
    requires FieldFits(f)
    ensures TakeField(PrintField(f) + rest) == Some((f.number, f.content, rest))
  {
    hide ReadVar, Leb;
    var key := 8 * f.number + Wire(f.content);
    match f.content {
      case Varint(v) =>
        assert PrintField(f) + rest == Leb(key) + (Leb(v) + rest);
        NumberBack(key, Leb(v) + rest);
        NumberBack(v, rest);
      case Blob(b) =>
        assert PrintField(f) + rest == Leb(key) + (Leb(|b|) + (b + rest));
        NumberBack(key, Leb(|b|) + (b + rest));
        NumberBack(|b|, b + rest);
        BlobBack(Leb(|b|), b, rest);
    }
  }

  lemma BlobBack(size: seq<Byte>, b: seq<Byte>, rest: seq<Byte>)
    ensures (size + (b + rest))[|size|..|size| + |b|] == b
    ensures (size + (b + rest))[|size| + |b|..] == rest
  {
  }

  /** Every printable list of fields decodes to its last-wins map. */
  lemma {:induction false} FieldsBack(fields: seq<Field>, found: map<nat, Content>)
    requires forall i :: 0 <= i < |fields| ==> FieldFits(fields[i])
    ensures Fields(PrintFields(fields), found) == Some(LastWins(fields, found))
    decreases |fields|
  {
    hide TakeField, PrintField, FieldFits;
    if fields != [] {
      var rest := PrintFields(fields[1..]);
      FieldBack(fields[0], rest);
      FieldsBack(fields[1..], found[fields[0].number := fields[0].content]);
    }
  }
}
