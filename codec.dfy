/**
 * The packed project description. The contract stores one string per project; the
 * create form writes `title + "\n\n" + body` into it, and readers split it on newlines,
 * drop the blank lines, and take the first line left as the title and the others,
 * newline-joined, as the body.
 */
module Codec {
  import opened Text
  import opened Wrappers

  /** `${title}\n\n${body}`: the title's lines, one empty line, then the body's lines. */
  function Encode(title: string, body: string): (packed: string)
    ensures Split(packed, '\n') == Split(title, '\n') + [[]] + Split(body, '\n')
  {
    EncodeLines(title, body);
    title + "\n\n" + body
  }

  lemma EncodeLines(title: string, body: string)
    ensures Split(title + "\n\n" + body, '\n') == Split(title, '\n') + [[]] + Split(body, '\n')
  {
    var second := "\n" + body;
    assert second == [] + ['\n'] + body;
    SplitAround([], body, '\n');
    assert Split([], '\n') == [[]];
    assert Split(second, '\n') == [[]] + Split(body, '\n');
    assert title + "\n\n" + body == title + ['\n'] + second;
    SplitAround(title, second, '\n');
  }

  /** `lines.filter(line => line.trim())`: the lines that are not blank, in order. */
  function NonBlank(lines: seq<string>): (kept: seq<string>)
    ensures |kept| <= |lines|
    ensures forall k :: 0 <= k < |kept| ==> !IsBlank(kept[k])
  {
    if lines == [] then []
    else if IsBlank(lines[0]) then NonBlank(lines[1..])
    else [lines[0]] + NonBlank(lines[1..])
  }

  /** `packed.split('\n').filter(line => line.trim())`. */
  function NonBlankLines(packed: string): seq<string> {
    NonBlank(Split(packed, '\n'))
  }

  /**
   * The shared decoding step: no title when no line survives, otherwise the first
   * surviving line and the others joined with newlines ("" when there are none).
   */
  function DecodePacked(packed: string): Option<(string, string)> {
    var lines := NonBlankLines(packed);
    if |lines| > 0 then
      Some((lines[0], if |lines| > 1 then Join(lines[1..], '\n') else ""))
    else None
  }

  /** Index of the first non-blank line (`|lines|` when there is none). */
  function FirstNonBlank(lines: seq<string>): (k: nat)
    ensures k <= |lines|
    ensures forall j :: 0 <= j < k ==> IsBlank(lines[j])
    ensures k < |lines| ==> !IsBlank(lines[k])
  {
    if lines == [] || !IsBlank(lines[0]) then 0 else 1 + FirstNonBlank(lines[1..])
  }

  /** Filtering splits over concatenation. */
  lemma {:induction false} NonBlankConcat(a: seq<string>, b: seq<string>)
    ensures NonBlank(a + b) == NonBlank(a) + NonBlank(b)
    decreases |a|
  {
    if a == [] {
      assert a + b == b;
    } else {
      assert (a + b)[0] == a[0] && (a + b)[1..] == a[1..] + b;
      NonBlankConcat(a[1..], b);
    }
  }

  /** Filtering keeps a list of non-blank lines as it is. */
  lemma {:induction false} NonBlankKeepsNonBlank(lines: seq<string>)
    requires forall k :: 0 <= k < |lines| ==> !IsBlank(lines[k])
    ensures NonBlank(lines) == lines
    decreases |lines|
  {
    if lines != [] {
      NonBlankKeepsNonBlank(lines[1..]);
    }
  }

  /**
   * What filtering leaves, described without the filter: the first kept line is the
   * first non-blank line, and the rest is what filtering the lines after it leaves.
   */
  lemma {:induction false} NonBlankFromFirst(lines: seq<string>)
    ensures var k := FirstNonBlank(lines);
      && (NonBlank(lines) == [] <==> k == |lines|)
      && (k < |lines| ==> NonBlank(lines) == [lines[k]] + NonBlank(lines[k + 1..]))
    decreases |lines|
  {
    if lines != [] && IsBlank(lines[0]) {
      NonBlankFromFirst(lines[1..]);
      var k := FirstNonBlank(lines[1..]);
      if k < |lines[1..]| {
        assert lines[1..][k + 1..] == lines[k + 2..];
      }
    }
  }

  /**
   * The decoded title is the first line of `packed` that is not blank, kept untrimmed,
   * and the decoded body is the non-blank lines after it, newline-joined in order.
   */
  lemma DecodeTitleIsFirstNonBlankLine(packed: string)
    ensures var lines := Split(packed, '\n');
      var k := FirstNonBlank(lines);
      DecodePacked(packed) == if k == |lines| then None
                              else Some((lines[k], Join(NonBlank(lines[k + 1..]), '\n')))
  {
    var lines := Split(packed, '\n');
    NonBlankFromFirst(lines);
    var k := FirstNonBlank(lines);
    var kept := NonBlank(lines);
    assert kept == NonBlankLines(packed);
    if k < |lines| {
      var rest := NonBlank(lines[k + 1..]);
      assert kept[0] == lines[k] && kept[1..] == rest;
      assert DecodePacked(packed) == Some((lines[k], if |kept| > 1 then Join(rest, '\n') else ""));
    }
  }

  /** `packed` decodes to nothing exactly when it is blank (every character whitespace). */
  lemma {:induction false} DecodeNoneIffBlank(packed: string)
    ensures DecodePacked(packed).None? <==> IsBlank(packed)
    decreases |packed|
  {
    if packed == [] {
      assert Split(packed, '\n') == [[]];
    } else {
      var c, t := packed[0], packed[1..];
      assert [c] + t == packed;
      DecodeNoneIffBlank(t);
      SplitCons(c, t, '\n');
      BlankConcat([c], t);
      var st := Split(t, '\n');
      if c == '\n' {
        assert ([[]] + st)[1..] == st;
      } else {
        BlankConcat([c], st[0]);
        assert st == [st[0]] + st[1..];
        assert ([[c] + st[0]] + st[1..])[1..] == st[1..];
        assert NonBlank(st) == [] <==> IsBlank(st[0]) && NonBlank(st[1..]) == [];
      }
    }
  }

  /**
   * Round trip of the create form: when the title is one non-blank line, decoding the
   * packed text gives back that title and the body with its blank lines removed.
   */
  lemma DecodeEncode(title: string, body: string)
    requires !IsBlank(title) && '\n' !in title
    ensures DecodePacked(Encode(title, body)) == Some((title, Join(NonBlankLines(body), '\n')))
  {
    SplitWithoutSeparator(title, '\n');
    var lines := Split(Encode(title, body), '\n');
    assert lines == [title, []] + Split(body, '\n');
    NonBlankConcat([title, []], Split(body, '\n'));
    assert NonBlank([title, []]) == [title];
    var kept := NonBlankLines(Encode(title, body));
    assert kept == [title] + NonBlankLines(body);
    assert kept[1..] == NonBlankLines(body);
  }

  /** When the body has no blank line either, the round trip is exact. */
  lemma DecodeEncodeExact(title: string, body: string)
    requires !IsBlank(title) && '\n' !in title
    requires forall k :: 0 <= k < |Split(body, '\n')| ==> !IsBlank(Split(body, '\n')[k])
    ensures DecodePacked(Encode(title, body)) == Some((title, body))
  {
    DecodeEncode(title, body);
    NonBlankKeepsNonBlank(Split(body, '\n'));
    JoinSplit(body, '\n');
  }

  /**
   * Decoding is stable: packing a decoded title and body again and decoding that
   * gives the same title and body.
   */
  lemma DecodeIsStable(packed: string)
    requires DecodePacked(packed).Some?
    ensures var tb := DecodePacked(packed).value;
      DecodePacked(Encode(tb.0, tb.1)) == DecodePacked(packed)
  {
    var lines := NonBlankLines(packed);
    var (title, body) := DecodePacked(packed).value;
    SplitPartsFree(packed, '\n');
    NonBlankSubset(Split(packed, '\n'), '\n');
    assert title == lines[0];
    DecodeEncode(title, body);
    var rest := lines[1..];
    if |rest| == 0 {
      assert body == "";
      assert Split(body, '\n') == [[]];
      assert NonBlankLines(body) == [];
    } else {
      assert body == Join(rest, '\n');
      SplitJoin(rest, '\n');
      NonBlankKeepsNonBlank(rest);
      assert NonBlankLines(body) == rest;
    }
  }

  /** Every line filtering keeps comes from the input, so it has no separator if none does. */
  lemma {:induction false} NonBlankSubset(lines: seq<string>, sep: char)
    requires forall k :: 0 <= k < |lines| ==> sep !in lines[k]
    ensures forall k :: 0 <= k < |NonBlank(lines)| ==> sep !in NonBlank(lines)[k]
    decreases |lines|
  {
    if lines != [] {
      NonBlankSubset(lines[1..], sep);
    }
  }
}
