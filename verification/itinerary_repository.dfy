/** Decoding of the comma-separated columns (languages, tags, events) of the search
    service's itinerary rows: `splitTags`, built on Go's `strings.Split`. */
module ItineraryRepository {

  const Comma: char := ','

  /** Occurrences of `c` in `s`. */
  function Count(s: string, c: char): nat {
    if |s| == 0 then 0 else (if s[0] == c then 1 else 0) + Count(s[1..], c)
  }

  /** `strings.Split(s, string(sep))`: the pieces between separators, empty pieces
      included; a string without the separator (the empty string too) is one piece. */
  function Split(s: string, sep: char): (r: seq<string>)
    ensures |r| == Count(s, sep) + 1
    ensures forall i :: 0 <= i < |r| ==> sep !in r[i]
  {
    if |s| == 0 then [""]
    else
      var rest := Split(s[1..], sep);
      if s[0] == sep then [""] + rest
      else [[s[0]] + rest[0]] + rest[1..]
  }

  /** `strings.Join(parts, string(sep))` */
  function Join(parts: seq<string>, sep: char): string {
    if |parts| == 0 then ""
    else if |parts| == 1 then parts[0]
    else parts[0] + [sep] + Join(parts[1..], sep)
  }

  /** `splitTags`: the empty column is the empty list, anything else is split at commas. */
  function SplitTags(input: string): (r: seq<string>)
    ensures input == "" ==> r == []
    ensures input != "" ==> |r| == Count(input, Comma) + 1
    ensures forall i :: 0 <= i < |r| ==> Comma !in r[i]
  {
    if input == "" then [] else Split(input, Comma)
  }

  /** Joining the pieces with the separator gives back the string. */
  lemma {:induction false} JoinSplit(s: string, sep: char)
    ensures Join(Split(s, sep), sep) == s
  {
    if |s| > 0 {
      var rest := Split(s[1..], sep);
      JoinSplit(s[1..], sep);
      if s[0] == sep {
        assert ([""] + rest)[1..] == rest;
        assert Join([""] + rest, sep) == [sep] + Join(rest, sep);
      } else {
        var r := Split(s, sep);
        assert r[1..] == rest[1..];
        if |rest| == 1 {
          assert r == [[s[0]] + rest[0]];
        } else {
          assert Join(rest, sep) == rest[0] + [sep] + Join(rest[1..], sep);
          assert Join(r, sep) == ([s[0]] + rest[0]) + [sep] + Join(rest[1..], sep);
        }
      }
    }
  }

  /** Round trip for the column decoder, the empty column included. */
  lemma JoinSplitTags(s: string)
    ensures Join(SplitTags(s), Comma) == s
  {
    if s != "" {
      JoinSplit(s, Comma);
    }
  }

  /** A string without the separator is a single piece. */
  lemma {:induction false} SplitNoSeparator(s: string, sep: char)
    requires sep !in s
    ensures Split(s, sep) == [s]
  {
    if |s| > 0 {
      assert s == [s[0]] + s[1..];
      SplitNoSeparator(s[1..], sep);
    }
  }

  /** A separator after a separator-free prefix ends the first piece there. */
  lemma {:induction false} SplitAfterPiece(x: string, y: string, sep: char)
    requires sep !in x
    ensures Split(x + [sep] + y, sep) == [x] + Split(y, sep)
  {
    if |x| == 0 {
      assert x + [sep] + y == [sep] + y;
      assert ([sep] + y)[1..] == y;
    } else {
      var s := x + [sep] + y;
      assert x == [x[0]] + x[1..];
      assert s[0] == x[0] && s[1..] == x[1..] + [sep] + y;
      SplitAfterPiece(x[1..], y, sep);
      var rest := Split(s[1..], sep);
      assert rest == [x[1..]] + Split(y, sep);
      assert Split(s, sep) == [[x[0]] + rest[0]] + rest[1..];
    }
  }

  /** Splitting a join gives back the pieces, provided there is at least one piece and
      none contains the separator. */
  lemma {:induction false} SplitJoin(parts: seq<string>, sep: char)
    requires |parts| > 0
    requires forall i :: 0 <= i < |parts| ==> sep !in parts[i]
    ensures Split(Join(parts, sep), sep) == parts
  {
    if |parts| == 1 {
      SplitNoSeparator(parts[0], sep);
    } else {
      SplitJoin(parts[1..], sep);
      SplitAfterPiece(parts[0], Join(parts[1..], sep), sep);
    }
  }

  /** The column decoder inverts the join of comma-free pieces, except for the one list
      `[""]`, whose join is the empty column and decodes to `[]`. */
  lemma SplitTagsJoin(parts: seq<string>)
    requires forall i :: 0 <= i < |parts| ==> Comma !in parts[i]
    ensures parts != [""] ==> SplitTags(Join(parts, Comma)) == parts
    ensures SplitTags(Join([""], Comma)) == []
  {
    if parts != [""] && |parts| > 0 {
      SplitJoin(parts, Comma);
      if |parts| == 1 {
        assert Join(parts, Comma) == parts[0];
      } else {
        assert |Join(parts, Comma)| > 0;
      }
    }
  }

  /** Empty pieces are kept: `"a,,b"` decodes to `["a", "", "b"]`, and a lone comma to
      two empty pieces. */
  lemma EmptyPiecesKept()
    ensures SplitTags("a,,b") == ["a", "", "b"]
    ensures SplitTags(",") == ["", ""]
  {
    SplitAfterPiece("a", ",b", Comma);
    assert "a,,b" == "a" + [Comma] + ",b";
    SplitAfterPiece("", "b", Comma);
    assert ",b" == "" + [Comma] + "b";
    SplitNoSeparator("b", Comma);
    SplitAfterPiece("", "", Comma);
    assert "," == "" + [Comma] + "";
    SplitNoSeparator("", Comma);
  }
}
