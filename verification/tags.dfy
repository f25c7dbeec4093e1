/**
 * Parsing the merchant's comma-separated tag field: split on ',', trim each
 * piece, drop the empty ones.
 */
module Tags {
  import opened Text

  /** A tag as stored on a product: non-empty, trimmed, comma-free. */
  predicate IsTag(t: string)
  {
    t != "" && IsTrimmed(t) && ',' !in t
  }

  /** The tag one comma-free piece yields: its trimmed text, or nothing when that is empty. */
  function TagOf(piece: string): (tags: seq<string>)
    requires ',' !in piece
    ensures tags == [] || tags == [Trim(piece)]
    ensures |tags| <= 1 && forall t <- tags :: IsTag(t)
    ensures tags == [] <==> AllWhitespace(piece)
  {
    var t := Trim(piece);
    assert forall c <- t :: c in piece;
    if t == "" then [] else [t]
  }

  /** The trimmed pieces, in order, with the empty ones dropped. */
  function KeepTrimmed(pieces: seq<string>): (tags: seq<string>)
    requires forall p <- pieces :: ',' !in p
    ensures forall t <- tags :: IsTag(t)
    ensures |tags| <= |pieces|
  {
    if pieces == [] then [] else TagOf(pieces[0]) + KeepTrimmed(pieces[1..])
  }

  /** The index of the first comma in `s`, or `|s|` when there is none. */
  function CommaIndex(s: string): (i: nat)
    ensures i <= |s|
    ensures ',' !in s[..i]
    ensures i < |s| ==> s[i] == ','
  {
    if s == [] || s[0] == ',' then 0
    else
      var k := CommaIndex(s[1..]);
      assert s[..k + 1] == [s[0]] + s[1..][..k];
      k + 1
  }

  /**
   * The tags of a tag field, read left to right: the text up to the next
   * comma yields at most one tag, and the rest of the field after that
   * comma is read the same way.
   */
  function ParseTags(input: string): (tags: seq<string>)
    ensures forall t <- tags :: IsTag(t)
    decreases |input|
  {
    var i := CommaIndex(input);
    if i == |input| then TagOf(input)
    else TagOf(input[..i]) + ParseTags(input[i + 1..])
  }

  /**
   * `input.split(',').map(t => t.trim()).filter(t => t !== '')`: the field is
   * cut at every comma, each piece trimmed, and the empty ones dropped.
   */
  function SplitTrimFilter(input: string): (tags: seq<string>)
    ensures forall t <- tags :: IsTag(t)
  {
    KeepTrimmed(Split(input, ','))
  }

  /** Reading the field comma by comma gives exactly the split-trim-filter pipeline. */
  lemma {:induction false} ParseTagsPipeline(input: string)
    ensures ParseTags(input) == SplitTrimFilter(input)
    decreases |input|
  {
    var i := CommaIndex(input);
    if i == |input| {
      assert input[..i] == input;
      SplitPiece(input, ',');
      assert KeepTrimmed([input]) == TagOf(input) + KeepTrimmed([]);
    } else {
      var head, rest := input[..i], input[i + 1..];
      assert input == head + [','] + rest;
      SplitPrefixed(head, rest, ',');
      ParseTagsPipeline(rest);
      var pieces := [head] + Split(rest, ',');
      assert pieces[0] == head && pieces[1..] == Split(rest, ',');
    }
  }

  lemma {:induction false} KeepTrimmedAppend(a: seq<string>, b: seq<string>)
    requires forall p <- a :: ',' !in p
    requires forall p <- b :: ',' !in p
    ensures KeepTrimmed(a + b) == KeepTrimmed(a) + KeepTrimmed(b)
  {
    if a != [] {
      var head := TagOf(a[0]);
      assert (a + b)[0] == a[0];
      assert (a + b)[1..] == a[1..] + b;
      KeepTrimmedAppend(a[1..], b);
      calc {
        KeepTrimmed(a + b);
        head + KeepTrimmed(a[1..] + b);
        head + (KeepTrimmed(a[1..]) + KeepTrimmed(b));
        (head + KeepTrimmed(a[1..])) + KeepTrimmed(b);
        KeepTrimmed(a) + KeepTrimmed(b);
      }
    } else {
      assert a + b == b;
    }
  }

  /** Tags are produced piece by piece: the tags of `a,b` are those of `a` followed by those of `b`. */
  lemma ParseTagsConcat(a: string, b: string)
    ensures ParseTags(a + "," + b) == ParseTags(a) + ParseTags(b)
  {
    ParseTagsPipeline(a + "," + b);
    ParseTagsPipeline(a);
    ParseTagsPipeline(b);
    var pa, pb := Split(a, ','), Split(b, ',');
    JoinAppend(pa, pb, ',');
    SplitJoin(pa + pb, ',');
    KeepTrimmedAppend(pa, pb);
  }

  /** A field without a comma yields its trimmed text as the only tag, or no tag if that is empty. */
  lemma ParseTagsSingle(input: string)
    requires ',' !in input
    ensures ParseTags(input) == if Trim(input) == "" then [] else [Trim(input)]
  {
    assert input[..|input|] == input;
  }

  /** A blank field (whitespace only) yields no tags. */
  lemma ParseTagsBlank(input: string)
    requires AllWhitespace(input)
    ensures ParseTags(input) == []
  {
    assert ',' !in input by {
      assert !IsWhitespace(',');
    }
    assert input[..|input|] == input;
  }

  /** Joining well-formed tags with commas and parsing the result gives the tags back. */
  lemma {:induction false} ParseTagsRoundTrip(tags: seq<string>)
    requires |tags| >= 1
    requires forall t <- tags :: IsTag(t)
    ensures ParseTags(Join(tags, ',')) == tags
  {
    ParseTagsPipeline(Join(tags, ','));
    SplitJoin(tags, ',');
    KeepTrimmedFixed(tags);
  }

  lemma {:induction false} KeepTrimmedFixed(tags: seq<string>)
    requires forall t <- tags :: IsTag(t)
    requires forall t <- tags :: ',' !in t
    ensures KeepTrimmed(tags) == tags
  {
    if tags != [] {
      assert IsTag(tags[0]);
      TrimTrimmed(tags[0]);
      KeepTrimmedFixed(tags[1..]);
      assert tags == [tags[0]] + tags[1..];
    }
  }
}
