/**
  The server's tag parser: the completion text is trimmed, split on commas,
  each piece trimmed, and empty pieces dropped. The page shows the tags joined
  with ", "; parsing that text again gives back the same tags.
 */
module Tags {

  import opened Wrappers
  import opened JsStrings

  /** A tag as the parser emits it: non-empty, comma-free, trimmed. */
  predicate IsTag(t: string) {
    t != [] && ',' !in t && IsTrimmed(t)
  }

  /** `b` keeps all elements of `a`, in the same order, possibly with others between them. */
  ghost predicate IsSubsequence(a: seq<string>, b: seq<string>)
    decreases |b|
  {
    a == [] || (b != [] && ((a[0] == b[0] && IsSubsequence(a[1..], b[1..])) || IsSubsequence(a, b[1..])))
  }

  /** `pieces.map(tag => tag.trim())`. */
  function TrimEach(pieces: seq<string>): (r: seq<string>)
    ensures |r| == |pieces|
    ensures forall i :: 0 <= i < |r| ==> r[i] == Trim(pieces[i])
  {
    if pieces == [] then [] else [Trim(pieces[0])] + TrimEach(pieces[1..])
  }

  /** Pieces that trim one by one to `ts` trim as a list to `ts`. */
  lemma {:induction false} TrimEachMatches(ps: seq<string>, ts: seq<string>)
    requires |ps| == |ts|
    requires forall i :: 0 <= i < |ps| ==> Trim(ps[i]) == ts[i]
    ensures TrimEach(ps) == ts
  {
  }

  /** The number of empty strings among `pieces`. */
  function EmptyCount(pieces: seq<string>): nat {
    if pieces == [] then 0 else (if pieces[0] == [] then 1 else 0) + EmptyCount(pieces[1..])
  }

  /** `pieces.filter(tag => tag)`: the non-empty strings, in order. */
  function NonEmpty(pieces: seq<string>): (r: seq<string>)
    ensures |r| == |pieces| - EmptyCount(pieces)
    ensures forall i :: 0 <= i < |r| ==> r[i] != [] && r[i] in pieces
    ensures IsSubsequence(r, pieces)
    ensures (forall i :: 0 <= i < |pieces| ==> pieces[i] != []) ==> r == pieces
  {
    if pieces == [] then []
    else if pieces[0] == [] then NonEmpty(pieces[1..])
    else [pieces[0]] + NonEmpty(pieces[1..])
  }

  /** Every non-empty piece survives the filter. */
  lemma {:induction false} NonEmptyKeeps(pieces: seq<string>, i: nat)
    requires i < |pieces| && pieces[i] != []
    ensures pieces[i] in NonEmpty(pieces)
  {
    if i > 0 {
      NonEmptyKeeps(pieces[1..], i - 1);
    }
  }

  /** The completion text trimmed, split on commas, and each field trimmed. */
  function Fields(content: string): (fields: seq<string>)
    ensures |fields| == Count(Trim(content), ',') + 1
    ensures forall i :: 0 <= i < |fields| ==> ',' !in fields[i] && IsTrimmed(fields[i])
  {
    var trimmed := Trim(content);
    SplitCount(trimmed, ',');
    TrimmedPiecesAreFree(Split(trimmed, ','));
    TrimEach(Split(trimmed, ','))
  }

  /** The tags parsed from a completion's content. */
  function ParseTags(content: string): (tags: seq<string>)
    ensures forall i :: 0 <= i < |tags| ==> IsTag(tags[i])
    ensures |tags| <= Count(content, ',') + 1
  {
    TrimmedCommas(content);
    NonEmpty(Fields(content))
  }

  lemma {:induction false} TrimmedPiecesAreFree(raw: seq<string>)
    requires forall i :: 0 <= i < |raw| ==> ',' !in raw[i]
    ensures forall i :: 0 <= i < |raw| ==> ',' !in Trim(raw[i])
  {
    forall i | 0 <= i < |raw| ensures ',' !in Trim(raw[i]) {
      if ',' in Trim(raw[i]) {
        TrimKeepsCharacters(raw[i], ',');
      }
    }
  }

  /** `ParseTags` keeps the fields in their order. */
  lemma {:induction false} ParseTagsInOrder(content: string)
    ensures IsSubsequence(ParseTags(content), Fields(content))
  {
  }

  /** `ParseTags` keeps every non-empty field and nothing else. */
  lemma {:induction false} ParseTagsKeepsFields(content: string)
    ensures forall i :: 0 <= i < |Fields(content)| && Fields(content)[i] != [] ==> Fields(content)[i] in ParseTags(content)
    ensures forall i :: 0 <= i < |ParseTags(content)| ==> ParseTags(content)[i] in Fields(content)
  {
    var fields := Fields(content);
    forall i | 0 <= i < |fields| && fields[i] != [] ensures fields[i] in ParseTags(content) {
      NonEmptyKeeps(fields, i);
    }
  }

  /** A string split on a one-character separator has one more piece than separators. */
  lemma {:induction false} SplitCount(s: string, sep: char)
    ensures |Split(s, sep)| == Count(s, sep) + 1
    decreases |s|
  {
    var r := IndexOf(s, sep);
    if r.None? {
      assert Split(s, sep) == [s];
    } else {
      var i := r.value;
      var rest := s[i + 1..];
      assert Split(s, sep) == [s[..i]] + Split(rest, sep);
      SplitCount(rest, sep);
      assert s == s[..i] + [sep] + rest;
      CountAround(s[..i], rest, sep);
    }
  }

  /** One separator between a separator-free prefix and the rest adds one to the count. */
  lemma {:induction false} CountAround(pre: string, rest: string, sep: char)
    requires sep !in pre
    ensures Count(pre + [sep] + rest, sep) == Count(rest, sep) + 1
  {
    assert pre + [sep] + rest == pre + ([sep] + rest);
    CountAppend(pre, [sep] + rest, sep);
    assert ([sep] + rest)[1..] == rest;
  }

  /** Trimming removes no comma that was not there and adds none. */
  lemma {:induction false} TrimmedCommas(s: string)
    ensures Count(Trim(s), ',') <= Count(s, ',')
  {
    var t := TrimStart(s);
    var r := TrimEnd(t);
    TrimStartFacts(s);
    TrimEndFacts(t);
    assert Trim(s) == r;
    CountSplit(s, |s| - |t|);
    CountSplit(t, |r|);
  }

  /** The occurrences of a character in a string are those before and after any cut. */
  lemma {:induction false} CountSplit(s: string, k: nat)
    requires k <= |s|
    ensures Count(s[..k], ',') + Count(s[k..], ',') == Count(s, ',')
  {
    assert s == s[..k] + s[k..];
    CountAppend(s[..k], s[k..], ',');
  }

  /** " " + each tag, for all tags after the first. */
  function Spaced(ts: seq<string>): (r: seq<string>)
    ensures |r| == |ts|
    ensures forall i :: 0 <= i < |ts| ==> r[i] == " " + ts[i]
  {
    if ts == [] then [] else [" " + ts[0]] + Spaced(ts[1..])
  }

  lemma {:induction false} SpacedJoin(ts: seq<string>)
    requires |ts| >= 1
    ensures " " + Join(ts, ", ") == Join(Spaced(ts), ",")
  {
    if |ts| > 1 {
      SpacedJoin(ts[1..]);
      assert Spaced(ts)[1..] == Spaced(ts[1..]);
    }
  }

  /** The first and the last character of a join of non-empty strings. */
  lemma {:induction false} JoinEnds(xs: seq<string>, sep: string)
    requires |xs| >= 1
    requires forall i :: 0 <= i < |xs| ==> xs[i] != []
    ensures Join(xs, sep) != []
    ensures Join(xs, sep)[0] == xs[0][0]
    ensures Join(xs, sep)[|Join(xs, sep)| - 1] == xs[|xs| - 1][|xs[|xs| - 1]| - 1]
  {
    if |xs| > 1 {
      JoinEnds(xs[1..], sep);
    }
  }

  /** The ", "-join of tags is the ","-join of the first tag and the others with a space in front. */
  lemma {:induction false} JoinAsFields(tags: seq<string>)
    requires |tags| >= 1
    ensures Join(tags, ", ") == Join([tags[0]] + Spaced(tags[1..]), ",")
  {
    var pieces := [tags[0]] + Spaced(tags[1..]);
    if |tags| == 1 {
      assert pieces == [tags[0]];
    } else {
      var rest := Join(tags[1..], ", ");
      assert Join(tags, ", ") == tags[0] + ", " + rest;
      assert tags[0] + ", " + rest == tags[0] + "," + (" " + rest);
      assert " " + rest == Join(Spaced(tags[1..]), ",") by {
        SpacedJoin(tags[1..]);
      }
      assert Join(pieces, ",") == tags[0] + "," + Join(Spaced(tags[1..]), ",") by {
        assert pieces[0] == tags[0];
        assert pieces[1..] == Spaced(tags[1..]);
      }
    }
  }

  /** A tag with one space in front trims back to the tag. */
  lemma {:induction false} TrimSpacedTag(t: string)
    requires IsTag(t)
    ensures Trim(" " + t) == t
    ensures ',' !in " " + t
  {
    TrimPadded([' '], t, []);
    assert [' '] + t + [] == " " + t;
  }

  /** Showing tags joined with ", " and parsing that text again gives back the tags. */
  lemma {:induction false} TagsRoundTrip(tags: seq<string>)
    requires forall i :: 0 <= i < |tags| ==> IsTag(tags[i])
    ensures ParseTags(Join(tags, ", ")) == tags
  {
    var text := Join(tags, ", ");
    if tags == [] {
      assert Split("", ',') == [""];
      assert TrimEach([""]) == [""];
    } else {
      var pieces := [tags[0]] + Spaced(tags[1..]);
      assert text == Join(pieces, [',']) by {
        JoinAsFields(tags);
      }
      assert Trim(text) == text by {
        JoinEnds(tags, ", ");
        TrimOfTrimmed(text);
      }
      assert Split(text, ',') == pieces && TrimEach(pieces) == tags by {
        forall i | 0 <= i < |pieces|
          ensures ',' !in pieces[i] && Trim(pieces[i]) == tags[i]
        {
          if i > 0 {
            TrimSpacedTag(tags[i]);
          }
        }
        SplitJoin(pieces, ',');
        TrimEachMatches(pieces, tags);
      }
      ParseTrimmedFields(text, tags);
    }
  }

  /** A trimmed text whose comma-separated fields trim to non-empty tags parses to those tags. */
  lemma {:induction false} ParseTrimmedFields(text: string, tags: seq<string>)
    requires Trim(text) == text
    requires TrimEach(Split(text, ',')) == tags
    requires forall i :: 0 <= i < |tags| ==> tags[i] != []
    ensures ParseTags(text) == tags
  {
    assert Fields(text) == tags;
  }

  /** Tags the server produced survive the page's ", " join and a second parse. */
  lemma {:induction false} ServerTagsRoundTrip(content: string)
    ensures ParseTags(Join(ParseTags(content), ", ")) == ParseTags(content)
  {
    TagsRoundTrip(ParseTags(content));
  }

  /** The text `a, b ,  c,,`: three tags with spaces around them and two empty fields at the end. */
  function PaddedText(a: string, b: string, c: string): string {
    a + ", " + b + " ,  " + c + ",,"
  }

  lemma {:induction false} PaddedFields(a: string, b: string, c: string)
    requires IsTag(a) && IsTag(b) && IsTag(c)
    ensures IsTrimmed(PaddedText(a, b, c))
    ensures Split(PaddedText(a, b, c), ',') == [a, " " + b + " ", "  " + c, "", ""]
  {
    var s := PaddedText(a, b, c);
    var pieces := [a, " " + b + " ", "  " + c, "", ""];
    assert IsTrimmed(s) by {
      assert s[0] == a[0];
      assert s[|s| - 1] == ',';
      assert !IsWhitespace(',');
    }
    assert Join(pieces, [',']) == s by {
      assert Join(pieces[3..], ",") == ",";
      assert Join(pieces[2..], ",") == "  " + c + ",,";
      assert Join(pieces[1..], ",") == " " + b + " ,  " + c + ",,";
    }
    assert ',' !in pieces[1] && ',' !in pieces[2];
    SplitJoin(pieces, ',');
  }

  lemma {:induction false} PaddedTrims(a: string, b: string, c: string)
    requires IsTag(a) && IsTag(b) && IsTag(c)
    ensures TrimEach([a, " " + b + " ", "  " + c, "", ""]) == [a, b, c, "", ""]
  {
    TrimPadded([], a, []);
    assert [] + a + [] == a;
    TrimPadded(" ", b, " ");
    TrimPadded("  ", c, []);
    assert "  " + c + [] == "  " + c;
    TrimEachOfFive(a, " " + b + " ", "  " + c, a, b, c);
  }

  lemma {:induction false} TrimEachOfFive(p0: string, p1: string, p2: string, t0: string, t1: string, t2: string)
    requires Trim(p0) == t0 && Trim(p1) == t1 && Trim(p2) == t2
    ensures TrimEach([p0, p1, p2, "", ""]) == [t0, t1, t2, "", ""]
  {
    var q := [p0, p1, p2, "", ""];
    var ts := [t0, t1, t2, "", ""];
    assert Trim("") == "";
    forall i | 0 <= i < |q| ensures Trim(q[i]) == ts[i] {
    }
    TrimEachMatches(q, ts);
  }

  lemma {:induction false} PaddedFilter(a: string, b: string, c: string)
    requires IsTag(a) && IsTag(b) && IsTag(c)
    ensures NonEmpty([a, b, c, "", ""]) == [a, b, c]
  {
    assert NonEmpty(["", ""]) == [] by {
      assert ["", ""][1..] == [""];
      assert [""][1..] == [];
    }
    assert NonEmpty([c, "", ""]) == [c] by {
      assert [c, "", ""][1..] == ["", ""];
    }
    assert NonEmpty([b, c, "", ""]) == [b, c] by {
      assert [b, c, "", ""][1..] == [c, "", ""];
    }
    assert [a, b, c, "", ""][1..] == [b, c, "", ""];
  }

  /** `a, b ,  c,,` parses to `[a, b, c]` for any three tags:
      white space around a field is trimmed and empty fields are dropped. */
  lemma {:induction false} ParseTagsPadded(a: string, b: string, c: string)
    requires IsTag(a) && IsTag(b) && IsTag(c)
    ensures ParseTags(PaddedText(a, b, c)) == [a, b, c]
  {
    PaddedFields(a, b, c);
    PaddedTrims(a, b, c);
    PaddedFilter(a, b, c);
    assert Fields(PaddedText(a, b, c)) == [a, b, c, "", ""];
  }

  /** The same shape with the tags `cats`, `dogs` and `birds`. */
  lemma {:induction false} ParseTagsExample(s: string)
    requires s == "cats, dogs ,  birds,,"
    ensures ParseTags(s) == ["cats", "dogs", "birds"]
  {
    assert s == PaddedText("cats", "dogs", "birds");
    ParseTagsPadded("cats", "dogs", "birds");
  }
}
