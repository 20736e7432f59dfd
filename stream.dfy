/**
 * The accumulation loop of `get_interview_questions` (app.py): the contents
 * of the streamed completion chunks, in arrival order, are collected into a
 * list, skipping every content that is `None` or empty, and the list is
 * joined into one string. The chunks themselves come from the remote
 * completion service and are an input here.
 */
module Stream {
  import opened Wrappers

  /** The content of one chunk: `None` or a piece of text. */
  type Content = Option<string>

  /** Python's truth test `if content:` on a chunk's content. */
  predicate Truthy(c: Content) {
    c.Some? && c.value != ""
  }

  /** The contents the loop appends to `questions`, in order. */
  function Kept(stream: seq<Content>): (kept: seq<string>)
    ensures |kept| <= |stream|
    ensures forall k :: 0 <= k < |kept| ==> kept[k] != ""
  {
    if stream == [] then []
    else (if Truthy(stream[0]) then [stream[0].value] else []) + Kept(stream[1..])
  }

  /** `"".join(parts)`. */
  function Join(parts: seq<string>): string
  {
    if parts == [] then "" else parts[0] + Join(parts[1..])
  }

  /** The string `get_interview_questions` returns for a stream of contents. */
  function Accumulated(stream: seq<Content>): string
  {
    Join(Kept(stream))
  }

  /** The text a content stands for: `None` stands for nothing. */
  function Text(c: Content): string
  {
    if c.Some? then c.value else ""
  }

  /** Reference definition: every content's text, one after another, with no filtering. */
  function AllText(stream: seq<Content>): string
  {
    if stream == [] then "" else Text(stream[0]) + AllText(stream[1..])
  }

  lemma {:induction false} KeptAppend(s1: seq<Content>, s2: seq<Content>)
    ensures Kept(s1 + s2) == Kept(s1) + Kept(s2)
  {
    if s1 == [] {
      assert s1 + s2 == s2;
    } else {
      assert (s1 + s2)[1..] == s1[1..] + s2;
      KeptAppend(s1[1..], s2);
    }
  }

  lemma {:induction false} JoinAppend(p1: seq<string>, p2: seq<string>)
    ensures Join(p1 + p2) == Join(p1) + Join(p2)
  {
    if p1 == [] {
      assert p1 + p2 == p2;
    } else {
      assert (p1 + p2)[1..] == p1[1..] + p2;
      JoinAppend(p1[1..], p2);
    }
  }

  /** Splitting the stream anywhere splits the result there: nothing is reordered or repeated. */
  lemma AccumulatedAppend(s1: seq<Content>, s2: seq<Content>)
    ensures Accumulated(s1 + s2) == Accumulated(s1) + Accumulated(s2)
  {
    KeptAppend(s1, s2);
    JoinAppend(Kept(s1), Kept(s2));
  }

  /** No chunks give the empty string, not an error. */
  lemma AccumulatedEmpty()
    ensures Accumulated([]) == ""
  {
  }

  /** A `None` or empty content at the end of the stream contributes nothing. */
  lemma AccumulatedIgnoresFalsy(stream: seq<Content>, c: Content)
    requires !Truthy(c)
    ensures Accumulated(stream + [c]) == Accumulated(stream)
  {
    AccumulatedAppend(stream, [c]);
    assert Kept([c]) == [];
  }

  /** A present content at the end of the stream is appended as it is; an empty one adds nothing. */
  lemma AccumulatedAppendsText(stream: seq<Content>, text: string)
    ensures Accumulated(stream + [Some(text)]) == Accumulated(stream) + text
  {
    AccumulatedAppend(stream, [Some(text)]);
    if text == "" {
      assert Kept([Some(text)]) == [];
      assert Accumulated(stream) + text == Accumulated(stream);
    } else {
      assert Kept([Some(text)]) == [text];
      assert Join([text]) == text + Join([]);
    }
  }

  /** Dropping the falsy contents is the same as reading each content's text in order. */
  lemma {:induction false} AccumulatedIsAllText(stream: seq<Content>)
    ensures Accumulated(stream) == AllText(stream)
  {
    if stream != [] {
      AccumulatedIsAllText(stream[1..]);
      assert stream == [stream[0]] + stream[1..];
      AccumulatedAppend([stream[0]], stream[1..]);
      if Truthy(stream[0]) {
        assert Join([stream[0].value]) == stream[0].value + Join([]);
      }
    }
  }

  /** The worked example: ["A", "", "BC", "D"] with a `None` in between accumulates to "ABCD". */
  lemma AccumulatedExample()
    ensures Accumulated([Some("A"), Some(""), None, Some("BC"), Some("D")]) == "ABCD"
  {
    var s := [Some("A"), Some(""), None, Some("BC"), Some("D")];
    AccumulatedIsAllText(s);
    assert AllText(s[4..]) == "D";
    assert AllText(s[3..]) == "BC" + "D";
    assert AllText(s[1..]) == "BCD";
  }

  /**
   * The loop of `get_interview_questions`: `questions` grows by each truthy
   * content in arrival order, then is joined.
   */
  method AccumulateChunks(stream: seq<Content>) returns (result: string)
    ensures result == Accumulated(stream)
  {
    var questions: seq<string> := [];
    var i := 0;
    while i < |stream|
      invariant 0 <= i <= |stream|
      invariant questions == Kept(stream[..i])
    {
      var content := stream[i];
      if Truthy(content) {
        questions := questions + [content.value];
      }
      KeptAppend(stream[..i], [content]);
      assert stream[..i + 1] == stream[..i] + [content];
      i := i + 1;
    }
    assert stream[..i] == stream;
    result := Join(questions);
  }
}
