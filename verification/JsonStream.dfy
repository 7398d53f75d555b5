/** Reading JSON documents from a response that arrives in chunks. */
module JsonStream {
  import opened Names

  /** A decoder looks for a document at the start of a text; it returns the document and the length it took. */
  type Decoder<!Doc> = string -> Option<(Doc, nat)>

  /** A successful decode is not changed by what follows. A decoder may look ahead before it succeeds. */
  ghost predicate Settled<Doc(!new)>(decode: Decoder<Doc>) {
    forall text, more :: decode(text).Some? ==> decode(text + more) == decode(text)
  }

  /** A successful decode takes something. */
  ghost predicate Consumes<Doc(!new)>(decode: Decoder<Doc>) {
    forall text :: decode(text).Some? ==> 0 < decode(text).value.1 <= |text|
  }

  predicate IsSpace(c: char) {
    c == ' ' || c == '\t' || c == '\n' || c == '\r'
  }

  /** The text from its first character that is not white space. */
  function Skip(text: string): (r: string)
    ensures |r| <= |text|
    ensures r != "" ==> !IsSpace(r[0])
  {
    if text != "" && IsSpace(text[0]) then Skip(text[1..]) else text
  }

  /** The documents of a text that has arrived as a whole, and what is left over. */
  ghost function Split<Doc(!new)>(decode: Decoder<Doc>, text: string): (seq<Doc>, string)
    requires Consumes(decode)
    decreases |text|
  {
    var t := Skip(text);
    if t == "" || decode(t).None? then ([], t)
    else
      var (doc, taken) := decode(t).value;
      var (docs, rest) := Split(decode, t[taken..]);
      ([doc] + docs, rest)
  }

  lemma {:induction false} SkipAppend(a: string, b: string)
    ensures Skip(a + b) == if Skip(a) == "" then Skip(b) else Skip(a) + b
  {
    if a == "" {
      assert a + b == b;
    } else {
      assert (a + b)[0] == a[0];
      if IsSpace(a[0]) {
        SkipAppend(a[1..], b);
        assert (a + b)[1..] == a[1..] + b;
      }
    }
  }

  /** Blanks, tabs and both characters of a line break are skipped, in any number and order, and nothing else is. */
  lemma {:induction false} SkipExact(space: string, text: string)
    requires forall c :: c in space ==> c in [' ', '\t', '\n', '\r']
    requires text != "" ==> text[0] !in [' ', '\t', '\n', '\r']
    ensures Skip(space + text) == text
  {
    if space == "" {
      assert space + text == text;
    } else {
      assert space[0] in space;
      SkipExact(space[1..], text);
      assert (space + text)[1..] == space[1..] + text;
    }
  }

  lemma SkipTwice(text: string)
    ensures Skip(Skip(text)) == Skip(text)
  {}

  /** One step of `Split`. */
  lemma SplitStep<Doc(!new)>(decode: Decoder<Doc>, text: string, t: string)
    requires Consumes(decode) && t == Skip(text)
    ensures t == "" || decode(t).None? ==> Split(decode, text) == ([], t)
    ensures t != "" && decode(t).Some? ==>
              && 0 < decode(t).value.1 <= |t| <= |text|
              && var (docs, rest) := Split(decode, t[decode(t).value.1..]);
                 Split(decode, text) == ([decode(t).value.0] + docs, rest)
  {}

  lemma SplitSkipped<Doc(!new)>(decode: Decoder<Doc>, a: string, b: string)
    requires Consumes(decode) && Skip(a) == Skip(b)
    ensures Split(decode, a) == Split(decode, b)
  {}

  /** Splitting what arrived first, and going on with the left-over and the rest, splits the whole. */
  lemma {:induction false} SplitAppend<Doc(!new)>(decode: Decoder<Doc>, a: string, b: string)
    requires Settled(decode) && Consumes(decode)
    ensures var (docs, rest) := Split(decode, a);
            var (more, end) := Split(decode, rest + b);
            Split(decode, a + b) == (docs + more, end)
    decreases |a|
  {
    hide Consumes, Split, Skip;
    var t := Skip(a);
    SkipAppend(a, b);
    SplitStep(decode, a, t);
    assert [] + Split(decode, t + b).0 == Split(decode, t + b).0;
    if t == "" {
      assert t + b == b;
      SplitSkipped(decode, a + b, b);
    } else if decode(t).None? {
      SkipTwice(a);
      SkipAppend(t, b);
      SplitSkipped(decode, a + b, t + b);
    } else {
      assert decode(t + b) == decode(t);
      var taken := decode(t).value.1;
      SplitStep(decode, a + b, t + b);
      assert (t + b)[taken..] == t[taken..] + b;
      SplitAppend(decode, t[taken..], b);
      var (docs, rest) := Split(decode, t[taken..]);
      var (more, end) := Split(decode, rest + b);
      assert ([decode(t).value.0] + docs) + more == [decode(t).value.0] + (docs + more);
    }
  }

  function Concat(chunks: seq<string>): string {
    if chunks == [] then "" else Concat(chunks[..|chunks| - 1]) + chunks[|chunks| - 1]
  }

  /** The position in `chunk`, from `idx` on, of the first character that is not white space. */
  method MatchWhitespace(chunk: string, idx: nat) returns (end: nat)
    requires idx <= |chunk|
    ensures idx <= end <= |chunk| && chunk[end..] == Skip(chunk[idx..])
  {
    end := idx;
    while end < |chunk| && IsSpace(chunk[end])
      invariant idx <= end <= |chunk|
      invariant Skip(chunk[end..]) == Skip(chunk[idx..])
    {
      assert chunk[end..][1..] == chunk[end + 1..];
      end := end + 1;
    }
  }

  /** One chunk, with what the earlier ones left over in front of it. */
  method SplitChunk<Doc(!new)>(decode: Decoder<Doc>, chunk: string) returns (docs: seq<Doc>, prev: string)
    requires Consumes(decode)
    ensures (docs, prev) == Split(decode, chunk)
  {
    hide Split, Consumes;
    docs := [];
    var idx := MatchWhitespace(chunk, 0);
    assert chunk[0..] == chunk;
    SkipTwice(chunk);
    SplitSkipped(decode, chunk, chunk[idx..]);
    assert [] + Split(decode, chunk[idx..]).0 == Split(decode, chunk[idx..]).0;
    while idx < |chunk|
      invariant idx <= |chunk| && Skip(chunk[idx..]) == chunk[idx..]
      invariant Split(decode, chunk) == (docs + Split(decode, chunk[idx..]).0, Split(decode, chunk[idx..]).1)
    {
      var found := decode(chunk[idx..]);
      SplitStep(decode, chunk[idx..], chunk[idx..]);
      if found.None? {
        break;
      }
      var (doc, taken) := found.value;
      ghost var before, rest := docs, chunk[idx..];
      var next := MatchWhitespace(chunk, idx + taken);
      assert rest[taken..] == chunk[idx + taken..];
      SkipTwice(chunk[idx + taken..]);
      SplitSkipped(decode, rest[taken..], chunk[next..]);
      docs, idx := docs + [doc], next;
      assert before + ([doc] + Split(decode, chunk[idx..]).0) == docs + Split(decode, chunk[idx..]).0;
    }
    prev := chunk[idx..];
    SplitStep(decode, prev, prev);
    assert docs + [] == docs;
  }

  /** Chunking does not matter: however the response is cut, the documents are those of the whole text. */
  method IterResponseObjects<Doc(!new)>(decode: Decoder<Doc>, chunks: seq<string>) returns (docs: seq<Doc>)
    requires Settled(decode) && Consumes(decode)
    ensures docs == Split(decode, Concat(chunks)).0
  {
    hide Settled, Split;
    docs := [];
    var prev := "";
    SplitNothing(decode);
    assert chunks[..0] == [];
    for i := 0 to |chunks|
      invariant (docs, prev) == Split(decode, Concat(chunks[..i]))
    {
      var found, rest := SplitChunk(decode, prev + chunks[i]);
      SplitAppend(decode, Concat(chunks[..i]), chunks[i]);
      assert chunks[..i + 1][..i] == chunks[..i];
      docs, prev := docs + found, rest;
    }
    assert chunks[..|chunks|] == chunks;
  }

  lemma SplitNothing<Doc(!new)>(decode: Decoder<Doc>)
    requires Consumes(decode)
    ensures Split(decode, "") == ([], "")
  {}

  // ---------------------------------------------------------------- what is written is what is read

  /** A document as it was sent: white space, then its text. */
  datatype Sent<Doc> = Sent(space: string, text: string, doc: Doc)

  predicate WellSent<Doc(==)>(decode: Decoder<Doc>, s: Sent<Doc>) {
    && (forall i :: 0 <= i < |s.space| ==> IsSpace(s.space[i]))
    && s.text != "" && !IsSpace(s.text[0])
    && decode(s.text) == Some((s.doc, |s.text|))
  }

  function Stream<Doc>(sent: seq<Sent<Doc>>): string {
    if sent == [] then "" else sent[0].space + sent[0].text + Stream(sent[1..])
  }

  function Documents<Doc>(sent: seq<Sent<Doc>>): seq<Doc> {
    if sent == [] then [] else [sent[0].doc] + Documents(sent[1..])
  }

  lemma {:induction false} SkipSpaces(space: string, text: string)
    requires forall i :: 0 <= i < |space| ==> IsSpace(space[i])
    requires text != "" && !IsSpace(text[0])
    ensures Skip(space + text) == text
  {
    if space == "" {
      assert space + text == text;
    } else {
      SkipSpaces(space[1..], text);
      assert (space + text)[1..] == space[1..] + text;
    }
  }

  /** Every document sent is read, once and in order, and nothing is left over. */
  lemma {:induction false} SplitStream<Doc(!new)>(decode: Decoder<Doc>, sent: seq<Sent<Doc>>)
    requires Settled(decode) && Consumes(decode)
    requires forall s :: s in sent ==> WellSent(decode, s)
    ensures Split(decode, Stream(sent)) == (Documents(sent), "")
  {
    if sent != [] {
      var s, rest := sent[0], Stream(sent[1..]);
      assert WellSent(decode, s);
      assert s.space + s.text + rest == s.space + (s.text + rest);
      SkipSpaces(s.space, s.text + rest);
      assert decode(s.text + rest) == decode(s.text);
      assert (s.text + rest)[|s.text|..] == rest;
      SplitStream(decode, sent[1..]);
    }
  }

  // ---------------------------------------------------------------- why the decoder must be settled

  predicate IsDigit(c: char) {
    '0' <= c <= '9'
  }

  function Digits(text: string): (n: nat)
    ensures n <= |text|
  {
    if text != "" && IsDigit(text[0]) then 1 + Digits(text[1..]) else 0
  }

  /** A decoder of bare numbers: as many digits as there are. */
  function Number(text: string): Option<(string, nat)> {
    if Digits(text) == 0 then None else Some((text[..Digits(text)], Digits(text)))
  }

  /** A number is not complete before something else follows: cut in two, it is read as two. */
  lemma NumbersDependOnChunks()
    ensures Consumes(Number) && !Settled(Number)
    ensures Split(Number, "12") == (["12"], "")
    ensures Split(Number, "1") == (["1"], "") && Split(Number, "2") == (["2"], "")
  {
    NumberReads("1");
    NumberReads("2");
    NumberReads("12");
    assert Consumes(Number);
    NumberEnds("1");
    NumberEnds("2");
    NumberEnds("12");
    assert !Settled(Number) by {
      assert "1" + "2" == "12";
    }
  }

  lemma NumberEnds(text: string)
    requires Consumes(Number) && text != "" && Number(text) == Some((text, |text|)) && Skip(text) == text
    ensures Split(Number, text) == ([text], "")
  {
    hide Split, Consumes, Number, Skip;
    SplitStep(Number, text, text);
    assert text[|text|..] == "";
    SplitNothing(Number);
    assert [text] + [] == [text];
  }

  lemma {:induction false} AllDigits(text: string)
    requires forall i :: 0 <= i < |text| ==> IsDigit(text[i])
    ensures Digits(text) == |text|
  {
    if text != "" {
      AllDigits(text[1..]);
    }
  }

  lemma NumberReads(text: string)
    requires text != "" && forall i :: 0 <= i < |text| ==> IsDigit(text[i])
    ensures Number(text) == Some((text, |text|)) && Skip(text) == text
  {
    AllDigits(text);
    assert text[..|text|] == text;
    assert IsDigit(text[0]);
  }
}
