/** The emitter: the C text a compilation produces is built in two buffers,
    a header (declarations, includes) and the code proper, and the output
    file holds the header followed by the code (emitter/emitter.go). */
module Emitter {

  /** One call a code generator makes on the emitter. */
  datatype Call =
    | Emit(code: string)        // append to the code, as is
    | EmitLine(code: string)    // append a line to the code
    | HeaderLine(code: string)  // append a line to the header

  /** The two buffers. */
  datatype Buffers = Buffers(header: string, code: string)

  /** The effect of one call on the buffers. */
  function Step(b: Buffers, c: Call): Buffers {
    match c
    case Emit(s) => Buffers(b.header, b.code + s)
    case EmitLine(s) => Buffers(b.header, b.code + s + "\n")
    case HeaderLine(s) => Buffers(b.header + s + "\n", b.code)
  }

  /** The buffers after a sequence of calls, made one after the other. */
  function Run(b: Buffers, calls: seq<Call>): Buffers
    decreases |calls|
  {
    if calls == [] then b else Run(Step(b, calls[0]), calls[1..])
  }

  /** What a call contributes to the header. */
  function HeaderText(c: Call): string {
    if c.HeaderLine? then c.code + "\n" else ""
  }

  /** What a call contributes to the code. */
  function CodeText(c: Call): string {
    match c
    case Emit(s) => s
    case EmitLine(s) => s + "\n"
    case HeaderLine(_) => ""
  }

  /** The header lines of a sequence of calls, in call order. */
  function Headers(calls: seq<Call>): string
    decreases |calls|
  {
    if calls == [] then "" else HeaderText(calls[0]) + Headers(calls[1..])
  }

  /** The code fragments of a sequence of calls, in call order. */
  function Codes(calls: seq<Call>): string
    decreases |calls|
  {
    if calls == [] then "" else CodeText(calls[0]) + Codes(calls[1..])
  }

  /** The file `WriteFile` writes after a sequence of calls on a new emitter. */
  function Output(calls: seq<Call>): (r: string)
    ensures r == Headers(calls) + Codes(calls)
  {
    RunIsConcatenation(Buffers("", ""), calls);
    var b := Run(Buffers("", ""), calls);
    b.header + b.code
  }

  /** Running calls appends their header lines to the header and their code
      fragments to the code, each in call order, the other buffer untouched. */
  lemma {:induction false} RunIsConcatenation(b: Buffers, calls: seq<Call>)
    ensures Run(b, calls) == Buffers(b.header + Headers(calls), b.code + Codes(calls))
    decreases |calls|
  {
    if calls != [] {
      var c, rest := calls[0], calls[1..];
      StepIsConcatenation(b, c);
      RunIsConcatenation(Step(b, c), rest);
      Associative(b.header, HeaderText(c), Headers(rest));
      Associative(b.code, CodeText(c), Codes(rest));
    }
  }

  /** One call appends its header text to the header and its code text to the code. */
  lemma StepIsConcatenation(b: Buffers, c: Call)
    ensures Step(b, c) == Buffers(b.header + HeaderText(c), b.code + CodeText(c))
  {
    match c
    case Emit(s) =>
      assert b.header + "" == b.header;
    case EmitLine(s) =>
      assert b.header + "" == b.header;
      Associative(b.code, s, "\n");
    case HeaderLine(s) =>
      assert b.code + "" == b.code;
      Associative(b.header, s, "\n");
  }

  lemma Associative(x: string, y: string, z: string)
    ensures x + y + z == x + (y + z)
  {
  }

  /** One more call is one more step. */
  lemma {:induction false} RunSnoc(b: Buffers, calls: seq<Call>, c: Call)
    ensures Run(b, calls + [c]) == Step(Run(b, calls), c)
    decreases |calls|
  {
    if calls == [] {
      assert [] + [c] == [c];
    } else {
      assert (calls + [c])[1..] == calls[1..] + [c];
      RunSnoc(Step(b, calls[0]), calls[1..], c);
    }
  }

  /** The header lines of concatenated call sequences are concatenated. */
  lemma {:induction false} HeadersAppend(xs: seq<Call>, ys: seq<Call>)
    ensures Headers(xs + ys) == Headers(xs) + Headers(ys)
    decreases |xs|
  {
    if xs == [] {
      assert [] + ys == ys;
    } else {
      assert (xs + ys)[1..] == xs[1..] + ys;
      HeadersAppend(xs[1..], ys);
    }
  }

  /** The code fragments of concatenated call sequences are concatenated. */
  lemma {:induction false} CodesAppend(xs: seq<Call>, ys: seq<Call>)
    ensures Codes(xs + ys) == Codes(xs) + Codes(ys)
    decreases |xs|
  {
    if xs == [] {
      assert [] + ys == ys;
    } else {
      assert (xs + ys)[1..] == xs[1..] + ys;
      CodesAppend(xs[1..], ys);
    }
  }

  /** Either buffer's text for three consecutive call sequences. */
  lemma ThreeParts(xs: seq<Call>, m: seq<Call>, ys: seq<Call>)
    ensures Headers(xs + m + ys) == Headers(xs) + Headers(m) + Headers(ys)
    ensures Codes(xs + m + ys) == Codes(xs) + Codes(m) + Codes(ys)
  {
    HeadersAppend(xs + m, ys);
    HeadersAppend(xs, m);
    CodesAppend(xs + m, ys);
    CodesAppend(xs, m);
  }

  /** What two consecutive calls contribute to either buffer. */
  lemma Pair(x: Call, y: Call)
    ensures Headers([x, y]) == HeaderText(x) + HeaderText(y)
    ensures Codes([x, y]) == CodeText(x) + CodeText(y)
  {
    var one := [y];
    assert [x, y][1..] == one;
    assert one[1..] == [];
    assert Headers(one) == HeaderText(y) + Headers([]);
    assert Codes(one) == CodeText(y) + Codes([]);
    assert HeaderText(y) + "" == HeaderText(y);
    assert CodeText(y) + "" == CodeText(y);
  }

  /** A header line and a code call made next to each other may be made in
      either order: the file is the same, wherever in the sequence they sit. */
  lemma HeaderCommutes(xs: seq<Call>, h: string, c: Call, ys: seq<Call>)
    requires !c.HeaderLine?
    ensures Output(xs + [HeaderLine(h), c] + ys) == Output(xs + [c, HeaderLine(h)] + ys)
  {
    ThreeParts(xs, [HeaderLine(h), c], ys);
    ThreeParts(xs, [c, HeaderLine(h)], ys);
    Pair(HeaderLine(h), c);
    Pair(c, HeaderLine(h));
    var line, code := HeaderText(HeaderLine(h)), CodeText(c);
    assert HeaderText(c) == "" && CodeText(HeaderLine(h)) == "";
    assert line + "" == line == "" + line;
    assert code + "" == code == "" + code;
  }

  /** A line of code is the code followed by a newline, emitted as is. */
  lemma EmitLineIsEmitWithNewline(b: Buffers, s: string)
    ensures Step(b, EmitLine(s)) == Step(b, Emit(s + "\n"))
  {
  }

  /** An emitter bound to an output path. `Calls` records, for the proofs,
      the calls made on it so far. */
  class Emitter {
    const FullPath: string
    var Header: string
    var Code: string
    ghost var Calls: seq<Call>

    /** The buffers are exactly what the recorded calls produce. */
    ghost predicate Valid()
      reads this
    {
      Buffers(Header, Code) == Run(Buffers("", ""), Calls)
    }

    /** `NewEmitter`: both buffers empty. */
    constructor (fullPath: string)
      ensures Valid() && FullPath == fullPath && Header == "" && Code == "" && Calls == []
    {
      FullPath := fullPath;
      Code := "";
      Header := "";
      Calls := [];
    }

    /** `Emit`: the fragment is appended to the code. */
    method Emit(code: string)
      requires Valid()
      modifies this
      ensures Valid() && Calls == old(Calls) + [Call.Emit(code)]
      ensures Code == old(Code) + code && Header == old(Header)
    {
      RunSnoc(Buffers("", ""), Calls, Call.Emit(code));
      Code := Code + code;
      Calls := Calls + [Call.Emit(code)];
    }

    /** `EmitLine`: the fragment and a newline are appended to the code. */
    method EmitLine(code: string)
      requires Valid()
      modifies this
      ensures Valid() && Calls == old(Calls) + [Call.EmitLine(code)]
      ensures Code == old(Code) + code + "\n" && Header == old(Header)
    {
      RunSnoc(Buffers("", ""), Calls, Call.EmitLine(code));
      Code := Code + code + "\n";
      Calls := Calls + [Call.EmitLine(code)];
    }

    /** `HeaderLine`: the fragment and a newline are appended to the header. */
    method HeaderLine(code: string)
      requires Valid()
      modifies this
      ensures Valid() && Calls == old(Calls) + [Call.HeaderLine(code)]
      ensures Header == old(Header) + code + "\n" && Code == old(Code)
    {
      RunSnoc(Buffers("", ""), Calls, Call.HeaderLine(code));
      Header := Header + code + "\n";
      Calls := Calls + [Call.HeaderLine(code)];
    }

    /** The text `WriteFile` writes to `FullPath`: the header lines of every
        call so far, then all the code, each in call order. */
    method Contents() returns (text: string)
      requires Valid()
      ensures text == Output(Calls)
      ensures text == Headers(Calls) + Codes(Calls)
    {
      text := Header + Code;
    }
  }
}
