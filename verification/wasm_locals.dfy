/**
 The declared-locals checker for binary Wasm modules: its reader, and the printer the reader must undo.
 Formats: sections 5.5.2 (sections), 5.5.6 (functions) and 5.5.13 (code) of the WebAssembly Core
 Specification 1.0. Every format error is one exception class in the source, and `None` here.
 */
module WasmLocals {
  import opened Wrappers
  import opened Leb128

  const MAGIC: seq<Byte> := [0, 0x61, 0x73, 0x6D, 1, 0, 0, 0]
  const END: Byte := 0x0B
  const U32_LIMIT: nat := 0x1_0000_0000
  const FUNCTION_SECTION: Byte := 3
  const CODE_SECTION: Byte := 10

  predicate ValueType(kind: Byte) {
    kind in {0x7F, 0x7E, 0x7D, 0x7C, 0x7B, 0x70, 0x6F}
  }

  // ---------------------------------------------------------------- what the reader means

  /** A number below 2^32 from the front, and what follows it. */
  function TakeU32(s: seq<Byte>): (r: Option<(nat, seq<Byte>)>)
    ensures r.Some? ==> r.value.0 < U32_LIMIT && |r.value.1| < |s|
  {
    var n := ReadVar(s, 5);
    if n.Value? && n.value < U32_LIMIT then Some((n.value, s[n.used..])) else None
  }

  /** A block with its length in front, and what follows it. */
  function TakePayload(s: seq<Byte>): (r: Option<(seq<Byte>, seq<Byte>)>)
    ensures r.Some? ==> |r.value.1| < |s|
  {
    var n := TakeU32(s);
    if n.None? || n.value.0 > |n.value.1| then None
    else Some((n.value.1[..n.value.0], n.value.1[n.value.0..]))
  }

  /** Skip type indices. */
  function SkipTypes(s: seq<Byte>, count: nat): Option<seq<Byte>>
    decreases count
  {
    if count == 0 then Some(s)
    else
      var n := TakeU32(s);
      if n.None? then None else SkipTypes(n.value.1, count - 1)
  }

  function FunctionCount(section: seq<Byte>): Option<nat> {
    var n := TakeU32(section);
    if n.None? then None
    else if SkipTypes(n.value.1, n.value.0) == Some([]) then Some(n.value.0) else None
  }

  /** Add up the declared counts of local groups. */
  function SumGroups(s: seq<Byte>, groups: nat, declared: nat): Option<(nat, seq<Byte>)>
    decreases groups
  {
    if groups == 0 then Some((declared, s))
    else
      var n := TakeU32(s);
      if n.None? || n.value.1 == [] || !ValueType(n.value.1[0]) then None
      else SumGroups(n.value.1[1..], groups - 1, declared + n.value.0)
  }

  function BodyLocals(body: seq<Byte>): Option<nat> {
    var n := TakeU32(body);
    if n.None? || n.value.0 > |n.value.1| / 2 then None
    else
      var sum := SumGroups(n.value.1, n.value.0, 0);
      if sum.None? || sum.value.1 == [] || body[|body| - 1] != END then None else Some(sum.value.0)
  }

  function Bodies(s: seq<Byte>, count: nat, locals: seq<nat>): Option<seq<nat>>
    decreases count
  {
    if count == 0 then (if s == [] then Some(locals) else None)
    else
      var body := TakePayload(s);
      if body.None? then None
      else
        var declared := BodyLocals(body.value.0);
        if declared.None? then None else Bodies(body.value.1, count - 1, locals + [declared.value])
  }

  function CodeLocals(section: seq<Byte>): Option<seq<nat>> {
    var n := TakeU32(section);
    if n.None? || n.value.0 > |n.value.1| / 3 then None else Bodies(n.value.1, n.value.0, [])
  }

  function Finished(functions: Option<nat>, locals: Option<seq<nat>>): Option<seq<nat>> {
    var counts := if locals.Some? then locals.value else [];
    if (if functions.Some? then functions.value else 0) == |counts| then Some(counts) else None
  }

  /** The sections of a module, with the function count and the locals found so far. */
  function Sections(s: seq<Byte>, functions: Option<nat>, locals: Option<seq<nat>>): Option<seq<nat>>
    decreases |s|
  {
    if s == [] then Finished(functions, locals)
    else
      var payload := TakePayload(s[1..]);
      if payload.None? then None
      else if s[0] == FUNCTION_SECTION then
        var count := FunctionCount(payload.value.0);
        if functions.Some? || count.None? then None else Sections(payload.value.1, count, locals)
      else if s[0] == CODE_SECTION then
        var counts := CodeLocals(payload.value.0);
        if locals.Some? || counts.None? then None else Sections(payload.value.1, functions, counts)
      else Sections(payload.value.1, functions, locals)
  }

  function ModuleLocals(data: seq<Byte>): Option<seq<nat>> {
    if MAGIC <= data then Sections(data[8..], None, None) else None
  }

  // ---------------------------------------------------------------- the reader

  /** The top group of a fifth byte has four bits. */
  lemma TopGroup(value: nat, index: nat, group: nat)
    requires index < 5 && value < Power(index) && group < 128
    ensures value + group * Power(index) < U32_LIMIT <==> index < 4 || group < 16
  {
    Powers();
    assert Power(1) == 128 && Power(2) == 16384 && Power(3) == 2097152;
  }

  lemma NoMore(start: seq<Byte>, value: nat, weight: nat)
    requires |start| < 5 && ReadsOn(start, 5, |start|, value, weight)
    ensures TakeU32(start).None?
  {
    hide ReadsOn, ReadVar;
    ReadsEnd(start, 5, value, weight);
  }

  lemma TooFar(start: seq<Byte>, value: nat, weight: nat)
    requires ReadsOn(start, 5, 5, value, weight)
    ensures TakeU32(start).None?
  {
    hide ReadsOn, ReadVar;
    ReadsTooFar(start, 5, value, weight);
  }

  /** One more byte of a u32: it ends, goes on, or is too large. */
  lemma OneMore(start: seq<Byte>, index: nat, value: nat, weight: nat)
    requires index < 5 && index < |start| && ReadsOn(start, 5, index, value, weight)
    ensures var byte, next := start[index], value + start[index] % 128 * weight;
            && (index == 4 && byte >= 16 ==> TakeU32(start).None?)
            && (byte < 128 && !(index == 4 && byte >= 16) ==> TakeU32(start) == Some((next, start[index + 1..])))
            && (byte >= 128 ==> ReadsOn(start, 5, index + 1, next, weight * 128))
  {
    hide ReadVar, Power, Joined;
    if start[index] < 128 {
      ReadsLast(start, 5, index, value, weight);
      TopGroup(value, index, start[index]);
    } else {
      ReadsMore(start, 5, index, value, weight);
      if index == 4 { ReadsTooFar(start, 5, value + start[index] % 128 * weight, weight * 128); }
    }
  }

  class Reader {
    const data: seq<Byte>
    var offset: nat

    ghost predicate Valid()
      reads this
    {
      offset <= |data|
    }

    /** The bytes not read yet. */
    ghost function Rest(): seq<Byte>
      requires Valid()
      reads this
    {
      data[offset..]
    }

    constructor (data: seq<Byte>)
      ensures Valid() && this.data == data && Rest() == data
    {
      this.data, offset := data, 0;
    }

    function Remaining(): nat
      requires Valid()
      reads this
    {
      |data| - offset
    }

    method Byte() returns (b: Option<Byte>)
      requires Valid()
      modifies this`offset
      ensures Valid()
      ensures if old(Rest()) == [] then b == None && Rest() == []
              else b == Some(old(Rest())[0]) && Rest() == old(Rest())[1..]
    {
      if Remaining() == 0 {
        return None;
      }
      b := Some(data[offset]);
      offset := offset + 1;
    }

    /** Every number read is below 2^32 and takes exactly its encoding. */
    method U32() returns (n: Option<nat>)
      requires Valid()
      modifies this`offset
      ensures Valid()
      ensures var t := TakeU32(old(Rest()));
              n.Some? == t.Some? && (n.Some? ==> n.value == t.value.0 && Rest() == t.value.1)
    {
      hide TakeU32, ReadsOn;
      ghost var start := Rest();
      var value: nat, weight: nat := 0, 1;
      ReadsStart(start, 5);
      for index := 0 to 5
        invariant Valid() && index <= |start| && Rest() == start[index..]
        invariant ReadsOn(start, 5, index, value, weight)
      {
        if index == |start| { NoMore(start, value, weight); }
        var byte := Byte();
        if byte.None? {
          return None;
        }
        OneMore(start, index, value, weight);
        if index == 4 && byte.value >= 16 {
          return None;
        }
        value := value + byte.value % 128 * weight;
        if byte.value < 128 {
          return Some(value);
        }
        weight := weight * 128;
      }
      TooFar(start, value, weight);
      return None;
    }

    /** A sub-reader over the next bytes. */
    method Payload(size: nat) returns (r: Option<Reader>)
      requires Valid()
      modifies this`offset
      ensures Valid()
      ensures r.Some? <==> size <= |old(Rest())|
      ensures r.Some? ==>
                && fresh(r.value) && r.value.Valid()
                && r.value.data == old(Rest())[..size] && r.value.Rest() == r.value.data
                && Rest() == old(Rest())[size..]
    {
      if size > Remaining() {
        return None;
      }
      var sub := new Reader(data[offset..offset + size]);
      offset := offset + size;
      return Some(sub);
    }
  }

  // ---------------------------------------------------------------- the checker

  /** The function section: a count, and one type index each; parameters are not locals. */
  method ReadFunctions(section: Reader) returns (functions: Option<nat>)
    requires section.Valid() && section.offset == 0
    modifies section
    ensures functions == FunctionCount(section.data)
  {
    hide TakeU32;
    assert section.data[0..] == section.data;
    var count := section.U32();
    if count.None? {
      return None;
    }
    ghost var types := section.Rest();
    for k := 0 to count.value
      invariant section.Valid()
      invariant SkipTypes(types, count.value) == SkipTypes(section.Rest(), count.value - k)
    {
      var index := section.U32();
      if index.None? {
        return None;
      }
    }
    if section.Remaining() != 0 {
      return None;
    }
    return count;
  }

  /** One function body: the sum of its local groups. */
  method ReadBody(body: Reader) returns (declared: Option<nat>)
    requires body.Valid() && body.offset == 0
    modifies body
    ensures declared == BodyLocals(body.data)
  {
    hide TakeU32, ValueType;
    assert body.data[0..] == body.data;
    var groups := body.U32();
    if groups.None? || groups.value > body.Remaining() / 2 {
      return None;
    }
    var sum := 0;
    ghost var start := body.Rest();
    for k := 0 to groups.value
      invariant body.Valid()
      invariant SumGroups(start, groups.value, 0) == SumGroups(body.Rest(), groups.value - k, sum)
    {
      var n := body.U32();
      if n.None? {
        return None;
      }
      var kind := body.Byte();
      if kind.None? || !ValueType(kind.value) {
        return None;
      }
      sum := sum + n.value;
    }
    if body.Remaining() == 0 || body.data[|body.data| - 1] != END {
      return None;
    }
    return Some(sum);
  }

  /** One body of a code section, from its length and its declared locals. */
  lemma NextBody(s: seq<Byte>, count: nat, locals: seq<nat>)
    requires count > 0
    ensures var size := TakeU32(s);
            && (size.None? || size.value.0 > |size.value.1| ==> Bodies(s, count, locals).None?)
            && (size.Some? && size.value.0 <= |size.value.1| ==>
                  var declared := BodyLocals(size.value.1[..size.value.0]);
                  Bodies(s, count, locals) ==
                    if declared.None? then None
                    else Bodies(size.value.1[size.value.0..], count - 1, locals + [declared.value]))
  {
    hide TakeU32, BodyLocals;
  }

  lemma NoMoreBodies(s: seq<Byte>, locals: seq<nat>)
    ensures Bodies(s, 0, locals) == if s == [] then Some(locals) else None
  {
  }

  /** The code section: its bodies in order. */
  method ReadCode(section: Reader) returns (locals: Option<seq<nat>>)
    requires section.Valid() && section.offset == 0
    modifies section
    ensures locals == CodeLocals(section.data)
  {
    hide TakeU32, BodyLocals, Bodies;
    assert section.data[0..] == section.data;
    var count := section.U32();
    if count.None? || count.value > section.Remaining() / 3 {
      return None;
    }
    var found: seq<nat> := [];
    ghost var start := section.Rest();
    for k := 0 to count.value
      invariant section.Valid()
      invariant Bodies(start, count.value, []) == Bodies(section.Rest(), count.value - k, found)
    {
      NextBody(section.Rest(), count.value - k, found);
      var size := section.U32();
      if size.None? {
        return None;
      }
      var body := section.Payload(size.value);
      if body.None? {
        return None;
      }
      var declared := ReadBody(body.value);
      if declared.None? {
        return None;
      }
      found := found + [declared.value];
    }
    NoMoreBodies(section.Rest(), found);
    if section.Remaining() != 0 {
      return None;
    }
    return Some(found);
  }

  /** `declared_function_locals`. */
  method DeclaredFunctionLocals(data: seq<Byte>) returns (r: Option<seq<nat>>)
    ensures r == ModuleLocals(data)
  {
    hide TakeU32, FunctionCount, CodeLocals;
    if !(MAGIC <= data) {
      return None;
    }
    var input := new Reader(data[8..]);
    var functions: Option<nat>, locals: Option<seq<nat>> := None, None;
    while input.Remaining() != 0
      invariant input.Valid() && fresh(input)
      invariant Sections(data[8..], None, None) == Sections(input.Rest(), functions, locals)
      decreases input.Remaining()
    {
      ghost var start := input.Rest();
      var id := input.Byte();
      var size := input.U32();
      if size.None? {
        return None;
      }
      var section := input.Payload(size.value);
      if section.None? {
        return None;
      }
      assert TakePayload(start[1..]) == Some((section.value.data, input.Rest()));
      if id.value == FUNCTION_SECTION {
        if functions.Some? {
          return None;
        }
        functions := ReadFunctions(section.value);
        if functions.None? {
          return None;
        }
      } else if id.value == CODE_SECTION {
        if locals.Some? {
          return None;
        }
        locals := ReadCode(section.value);
        if locals.None? {
          return None;
        }
      }
    }
    r := Finished(functions, locals);
  }

  // ---------------------------------------------------------------- the printer

  /** A run of locals of one type. */
  datatype Group = Group(count: nat, kind: Byte)

  /** A function body: its local groups, and its instructions up to the final end. */
  datatype Body = Body(groups: seq<Group>, code: seq<Byte>)

  datatype Section =
    | Other(id: Byte, payload: seq<Byte>)
    | Functions(types: seq<nat>)
    | Code(bodies: seq<Body>)

  function PrintGroups(groups: seq<Group>): seq<Byte> {
    if groups == [] then [] else Leb(groups[0].count) + [groups[0].kind] + PrintGroups(groups[1..])
  }

  function PrintBody(b: Body): seq<Byte> {
    Leb(|b.groups|) + PrintGroups(b.groups) + b.code + [END]
  }

  function Sized(payload: seq<Byte>): seq<Byte> { Leb(|payload|) + payload }

  function PrintBodies(bodies: seq<Body>): seq<Byte> {
    if bodies == [] then [] else Sized(PrintBody(bodies[0])) + PrintBodies(bodies[1..])
  }

  function PrintTypes(types: seq<nat>): seq<Byte> {
    if types == [] then [] else Leb(types[0]) + PrintTypes(types[1..])
  }

  function Payload(s: Section): seq<Byte> {
    match s
    case Other(_, payload) => payload
    case Functions(types) => Leb(|types|) + PrintTypes(types)
    case Code(bodies) => Leb(|bodies|) + PrintBodies(bodies)
  }

  function SectionId(s: Section): Byte {
    match s
    case Other(id, _) => id
    case Functions(_) => FUNCTION_SECTION
    case Code(_) => CODE_SECTION
  }

  /** `section`: the id, the length, the payload. */
  function PrintSection(s: Section): seq<Byte> { [SectionId(s)] + Sized(Payload(s)) }

  function PrintSections(sections: seq<Section>): seq<Byte> {
    if sections == [] then [] else PrintSection(sections[0]) + PrintSections(sections[1..])
  }

  function PrintModule(sections: seq<Section>): seq<Byte> { MAGIC + PrintSections(sections) }

  // ---------------------------------------------------------------- what the format can express

  predicate GroupsFit(groups: seq<Group>) {
    forall i :: 0 <= i < |groups| ==> groups[i].count < U32_LIMIT && ValueType(groups[i].kind)
  }

  predicate BodyFits(b: Body) {
    |b.groups| < U32_LIMIT && GroupsFit(b.groups) && |PrintBody(b)| < U32_LIMIT
  }

  predicate SectionFits(s: Section) {
    && |Payload(s)| < U32_LIMIT
    && match s
       case Other(id, _) => id != FUNCTION_SECTION && id != CODE_SECTION
       case Functions(types) => |types| < U32_LIMIT && forall i :: 0 <= i < |types| ==> types[i] < U32_LIMIT
       case Code(bodies) => |bodies| < U32_LIMIT && forall i :: 0 <= i < |bodies| ==> BodyFits(bodies[i])
  }

  function DeclaredBy(groups: seq<Group>): nat {
    if groups == [] then 0 else groups[0].count + DeclaredBy(groups[1..])
  }

  function LocalsOf(bodies: seq<Body>): (locals: seq<nat>)
    ensures |locals| == |bodies| && forall i :: 0 <= i < |bodies| ==> locals[i] == DeclaredBy(bodies[i].groups)
  {
    seq(|bodies|, i requires 0 <= i < |bodies| => DeclaredBy(bodies[i].groups))
  }

  /** What a list of sections declares: at most one function and one code section, of equal counts. */
  function Declared(sections: seq<Section>, functions: Option<nat>, locals: Option<seq<nat>>): Option<seq<nat>> {
    if sections == [] then Finished(functions, locals)
    else match sections[0]
      case Other(_, _) => Declared(sections[1..], functions, locals)
      case Functions(types) => if functions.Some? then None else Declared(sections[1..], Some(|types|), locals)
      case Code(bodies) => if locals.Some? then None else Declared(sections[1..], functions, Some(LocalsOf(bodies)))
  }

  // ---------------------------------------------------------------- the round trip

  lemma TakeBack(n: nat, rest: seq<Byte>)
    requires n < U32_LIMIT
    ensures TakeU32(Leb(n) + rest) == Some((n, rest))
  {
    Powers();
    ReadBack(n, rest, 5);
    LebLength(n, 5);
  }

  lemma PayloadBack(payload: seq<Byte>, rest: seq<Byte>)
    requires |payload| < U32_LIMIT
    ensures TakePayload(Sized(payload) + rest) == Some((payload, rest))
  {
    hide TakeU32;
    TakeBack(|payload|, payload + rest);
    assert Sized(payload) + rest == Leb(|payload|) + (payload + rest);
  }

  lemma {:induction false} TypesBack(types: seq<nat>)
    requires forall i :: 0 <= i < |types| ==> types[i] < U32_LIMIT
    ensures SkipTypes(PrintTypes(types), |types|) == Some([])
  {
    hide TakeU32;
    if types != [] {
      TakeBack(types[0], PrintTypes(types[1..]));
      TypesBack(types[1..]);
    }
  }

  lemma {:induction false} GroupsBack(groups: seq<Group>, rest: seq<Byte>, declared: nat)
    requires GroupsFit(groups)
    ensures SumGroups(PrintGroups(groups) + rest, |groups|, declared) == Some((declared + DeclaredBy(groups), rest))
    ensures |PrintGroups(groups)| >= 2 * |groups|
    decreases |groups|
  {
    hide TakeU32, ValueType;
    if groups == [] {
      assert PrintGroups(groups) + rest == rest;
    } else {
      var tail := [groups[0].kind] + (PrintGroups(groups[1..]) + rest);
      assert PrintGroups(groups) + rest == Leb(groups[0].count) + tail;
      TakeBack(groups[0].count, tail);
      assert tail[1..] == PrintGroups(groups[1..]) + rest;
      GroupsBack(groups[1..], rest, declared + groups[0].count);
    }
  }

  /** No guard rejects a printed body, and its locals are read back. */
  lemma BodyBack(b: Body)
    requires BodyFits(b)
    ensures BodyLocals(PrintBody(b)) == Some(DeclaredBy(b.groups))
    ensures |PrintBody(b)| >= 2
  {
    hide TakeU32, SumGroups, PrintGroups;
    var rest := b.code + [END];
    assert PrintBody(b) == Leb(|b.groups|) + (PrintGroups(b.groups) + rest);
    TakeBack(|b.groups|, PrintGroups(b.groups) + rest);
    GroupsBack(b.groups, rest, 0);
  }

  lemma {:induction false} BodiesBack(bodies: seq<Body>, locals: seq<nat>)
    requires forall i :: 0 <= i < |bodies| ==> BodyFits(bodies[i])
    ensures Bodies(PrintBodies(bodies), |bodies|, locals) == Some(locals + LocalsOf(bodies))
    ensures |PrintBodies(bodies)| >= 3 * |bodies|
    decreases |bodies|
  {
    hide TakePayload, BodyLocals, BodyFits;
    if bodies == [] {
      assert locals + LocalsOf(bodies) == locals;
    } else {
      FittingBody(bodies[0]);
      PayloadBack(PrintBody(bodies[0]), PrintBodies(bodies[1..]));
      BodyBack(bodies[0]);
      BodiesBack(bodies[1..], locals + [DeclaredBy(bodies[0].groups)]);
      assert locals + [DeclaredBy(bodies[0].groups)] + LocalsOf(bodies[1..]) == locals + LocalsOf(bodies);
    }
  }

  lemma FittingBody(b: Body)
    requires BodyFits(b)
    ensures |PrintBody(b)| < U32_LIMIT
  {
  }

  lemma FunctionsBack(types: seq<nat>)
    requires SectionFits(Functions(types))
    ensures FunctionCount(Payload(Functions(types))) == Some(|types|)
  {
    hide TakeU32, SkipTypes;
    TakeBack(|types|, PrintTypes(types));
    TypesBack(types);
  }

  lemma CodeBack(bodies: seq<Body>)
    requires SectionFits(Code(bodies))
    ensures CodeLocals(Payload(Code(bodies))) == Some(LocalsOf(bodies))
  {
    hide TakeU32, Bodies, PrintBodies, BodyFits;
    TakeBack(|bodies|, PrintBodies(bodies));
    BodiesBack(bodies, []);
    assert [] + LocalsOf(bodies) == LocalsOf(bodies);
  }

  lemma {:induction false} SectionsBack(sections: seq<Section>, functions: Option<nat>, locals: Option<seq<nat>>)
    requires forall i :: 0 <= i < |sections| ==> SectionFits(sections[i])
    ensures Sections(PrintSections(sections), functions, locals) == Declared(sections, functions, locals)
    decreases |sections|
  {
    hide TakePayload, FunctionCount, CodeLocals, Payload, LocalsOf;
    if sections != [] {
      var s, rest := sections[0], PrintSections(sections[1..]);
      var printed := PrintSections(sections);
      assert printed == [SectionId(s)] + (Sized(Payload(s)) + rest);
      assert printed[0] == SectionId(s) && printed[1..] == Sized(Payload(s)) + rest;
      FittingSection(s);
      PayloadBack(Payload(s), rest);
      match s {
        case Other(_, _) => SectionsBack(sections[1..], functions, locals);
        case Functions(types) =>
          FunctionsBack(types);
          if functions.None? { SectionsBack(sections[1..], Some(|types|), locals); }
        case Code(bodies) =>
          CodeBack(bodies);
          if locals.None? { SectionsBack(sections[1..], functions, Some(LocalsOf(bodies))); }
      }
    }
  }

  lemma FittingSection(s: Section)
    requires SectionFits(s)
    ensures |Payload(s)| < U32_LIMIT
  {
  }

  /** Every printable module, with any other sections anywhere in between, is read back exactly. */
  lemma ModuleBack(sections: seq<Section>)
    requires forall i :: 0 <= i < |sections| ==> SectionFits(sections[i])
    ensures ModuleLocals(PrintModule(sections)) == Declared(sections, None, None)
  {
    assert PrintModule(sections)[8..] == PrintSections(sections);
    SectionsBack(sections, None, None);
  }

  /** In particular the sums of one function and one code section of equal counts, in either order. */
  lemma LocalsBack(before: seq<Section>, between: seq<Section>, after: seq<Section>, types: seq<nat>, bodies: seq<Body>)
    requires forall s :: s in before + between + after ==> s.Other? && SectionFits(s)
    requires SectionFits(Functions(types)) && SectionFits(Code(bodies)) && |types| == |bodies|
    ensures ModuleLocals(PrintModule(before + [Functions(types)] + between + [Code(bodies)] + after))
            == Some(LocalsOf(bodies))
    ensures ModuleLocals(PrintModule(before + [Code(bodies)] + between + [Functions(types)] + after))
            == Some(LocalsOf(bodies))
  {
    hide SectionFits, LocalsOf, ModuleLocals, PrintModule, Declared;
    ModuleBack(before + [Functions(types)] + between + [Code(bodies)] + after);
    ModuleBack(before + [Code(bodies)] + between + [Functions(types)] + after);
    OneOfEach(before, between, after, Functions(types), Code(bodies), types, bodies);
    OneOfEach(before, between, after, Code(bodies), Functions(types), types, bodies);
  }

  lemma OneOfEach(before: seq<Section>, between: seq<Section>, after: seq<Section>, a: Section, b: Section,
                  types: seq<nat>, bodies: seq<Body>)
    requires forall s :: s in before + between + after ==> s.Other?
    requires |types| == |bodies|
    requires (a == Functions(types) && b == Code(bodies)) || (a == Code(bodies) && b == Functions(types))
    ensures Declared(before + [a] + between + [b] + after, None, None) == Some(LocalsOf(bodies))
  {
    hide LocalsOf, Declared;
    var t, l := Some(|types|), Some(LocalsOf(bodies));
    assert before + [a] + between + [b] + after == before + ([a] + (between + ([b] + after)));
    OthersSkipped(before, [a] + (between + ([b] + after)), None, None);
    FirstDeclared(a, between + ([b] + after), None, None);
    if a.Functions? {
      OthersSkipped(between, [b] + after, t, None);
      FirstDeclared(b, after, t, None);
    } else {
      OthersSkipped(between, [b] + after, None, l);
      FirstDeclared(b, after, None, l);
    }
    assert after + [] == after;
    OthersSkipped(after, [], t, l);
    NothingDeclared(t, l);
  }

  lemma NothingDeclared(functions: Option<nat>, locals: Option<seq<nat>>)
    ensures Declared([], functions, locals) == Finished(functions, locals)
  {
  }

  lemma FirstDeclared(s: Section, rest: seq<Section>, functions: Option<nat>, locals: Option<seq<nat>>)
    ensures s.Functions? && functions.None? ==>
              Declared([s] + rest, functions, locals) == Declared(rest, Some(|s.types|), locals)
    ensures s.Code? && locals.None? ==>
              Declared([s] + rest, functions, locals) == Declared(rest, functions, Some(LocalsOf(s.bodies)))
  {
    assert ([s] + rest)[1..] == rest;
  }

  lemma {:induction false} OthersSkipped(others: seq<Section>, rest: seq<Section>, functions: Option<nat>,
                                         locals: Option<seq<nat>>)
    requires forall s :: s in others ==> s.Other?
    ensures Declared(others + rest, functions, locals) == Declared(rest, functions, locals)
    decreases |others|
  {
    if others == [] {
      assert others + rest == rest;
    } else {
      assert (others + rest)[1..] == others[1..] + rest;
      OthersSkipped(others[1..], rest, functions, locals);
    }
  }
}
