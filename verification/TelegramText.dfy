/** Splitting a long text into messages of bounded length. */
module TelegramText {
  import opened Wrappers

  const MESSAGE_LIMIT: int := 4096

  // Finding a place to split

  predicate Occurs(s: string, mark: string, i: int) {
    0 <= i && i + |mark| <= |s| && s[i..i + |mark|] == mark
  }

  /** The last index below n at which a mark occurs, or -1. */
  function LastBelow(s: string, mark: string, n: int): (i: int)
    ensures i == -1 || (Occurs(s, mark, i) && i < n)
    ensures forall k | i < k < n :: !Occurs(s, mark, k)
    decreases n
  {
    if n <= 0 then -1
    else if Occurs(s, mark, n - 1) then n - 1
    else LastBelow(s, mark, n - 1)
  }

  function LastIndex(s: string, mark: string): (i: int)
    ensures i == -1 || Occurs(s, mark, i)
    ensures forall k | i < k :: !Occurs(s, mark, k)
  {
    LastBelow(s, mark, |s| + 1)
  }

  /** A mark stands in the window, with something before it. */
  predicate CanSplitAt(window: string, mark: string) {
    exists i :: 0 < i < |window| && Occurs(window, mark, i)
  }

  /** The last place of a mark in the window with something before it. */
  ghost predicate IsLastPlace(window: string, mark: string, i: int) {
    0 < i && Occurs(window, mark, i) && forall k | i < k :: !Occurs(window, mark, k)
  }

  function Boundary(text: string, limit: int): (b: int)
    requires 1 <= limit < |text|
    ensures 1 <= b <= limit
  {
    var window := text[..limit];
    var paragraph := LastIndex(window, "\n\n");
    if 0 < paragraph then paragraph
    else
      var line := LastIndex(window, "\n");
      if 0 < line then line
      else
        var space := LastIndex(window, " ");
        if 0 < space then space else limit
  }

  /**
   A chunk ends at the last blank line in the window; failing that at the last line end; failing that at
   the last space; and only if there is none of these at the limit.
   */
  lemma BoundaryIsLast(text: string, limit: int)
    requires 1 <= limit < |text|
    ensures var window, b := text[..limit], Boundary(text, limit);
            if CanSplitAt(window, "\n\n") then IsLastPlace(window, "\n\n", b)
            else if CanSplitAt(window, "\n") then IsLastPlace(window, "\n", b)
            else if CanSplitAt(window, " ") then IsLastPlace(window, " ", b)
            else b == limit
  {
    var window := text[..limit];
    LastPlace(window, "\n\n");
    LastPlace(window, "\n");
    LastPlace(window, " ");
    hide CanSplitAt, IsLastPlace;
  }

  lemma LastPlace(window: string, mark: string)
    requires mark != ""
    ensures CanSplitAt(window, mark) <==> 0 < LastIndex(window, mark)
    ensures CanSplitAt(window, mark) ==> IsLastPlace(window, mark, LastIndex(window, mark))
  {
  }

  function DropLeading(s: string, c: char): (rest: string)
    ensures |rest| <= |s|
  {
    if s != "" && s[0] == c then DropLeading(s[1..], c) else s
  }

  /** Only leading characters are dropped, and all of them. */
  lemma {:induction false} DroppedLeading(s: string, c: char)
    ensures var rest := DropLeading(s, c);
            (rest == "" || rest[0] != c) && s == Repeated(c, |s| - |rest|) + rest
    decreases |s|
  {
    if s != "" && s[0] == c {
      DroppedLeading(s[1..], c);
      var rest := DropLeading(s, c);
      assert Repeated(c, |s| - |rest|) == [c] + Repeated(c, |s| - 1 - |rest|);
      assert s == [c] + s[1..];
    } else {
      assert Repeated(c, 0) + s == s;
    }
  }

  /** What is left after a chunk: newlines go, then spaces. */
  function Rest(text: string, b: int): (rest: string)
    requires 0 <= b <= |text|
    ensures |rest| <= |text| - b
  {
    DropLeading(DropLeading(text[b..], '\n'), ' ')
  }

  /** Nothing that could be dropped is left: no space leads, and no newline unless spaces went after it. */
  lemma RestIsStripped(text: string, b: int)
    requires 0 <= b <= |text|
    ensures var rest := Rest(text, b);
            && rest == text[|text| - |rest|..]
            && (rest != "" ==> rest[0] != ' ')
            && (rest != "" && rest[0] == '\n' ==> b < |text| - |rest| && text[|text| - |rest| - 1] == ' ')
  {
    hide DropLeading, Repeated;
    var tail := text[b..];
    var lines := DropLeading(tail, '\n');
    DroppedSuffix(tail, '\n');
    DroppedSuffix(lines, ' ');
  }

  lemma DroppedSuffix(s: string, c: char)
    ensures var rest := DropLeading(s, c);
            && rest == s[|s| - |rest|..] && (rest != "" ==> rest[0] != c)
            && (rest != s ==> s[|s| - |rest| - 1] == c)
  {
    hide DropLeading;
    DroppedLeading(s, c);
  }

  // The chunks

  function Split(text: string, limit: int): seq<string>
    requires 1 <= limit
    decreases |text|
  {
    if |text| <= limit then [text]
    else
      var b := Boundary(text, limit);
      var rest := Rest(text, b);
      [text[..b]] + if rest == "" then [] else Split(rest, limit)
  }

  /** A run of newlines followed by a run of spaces. */
  ghost predicate IsGap(gap: string) {
    exists n: nat, m: nat :: gap == Repeated('\n', n) + Repeated(' ', m)
  }

  function Repeated(c: char, n: nat): (s: string)
    ensures |s| == n && forall i | 0 <= i < n :: s[i] == c
  {
    seq(n, _ => c)
  }

  function Joined(chunks: seq<string>, gaps: seq<string>): string
    requires |chunks| == |gaps|
  {
    if chunks == [] then "" else chunks[0] + gaps[0] + Joined(chunks[1..], gaps[1..])
  }

  /** Every chunk fits, and none is empty unless the text is. */
  lemma {:induction false} ChunksFit(text: string, limit: int)
    requires 1 <= limit
    ensures var chunks := Split(text, limit);
            && |chunks| >= 1
            && (forall i | 0 <= i < |chunks| :: |chunks[i]| <= limit)
            && (forall i | 0 <= i < |chunks| :: chunks[i] == "" ==> text == "" && chunks == [""])
    decreases |text|
  {
    hide Boundary, Rest;
    if limit < |text| {
      var rest := Rest(text, Boundary(text, limit));
      if rest != "" {
        ChunksFit(rest, limit);
      }
    }
  }

  /** The first chunk is the text up to the boundary, and the others are those of the rest. */
  lemma SplitStep(text: string, limit: int)
    requires 1 <= limit < |text|
    ensures var chunks, b := Split(text, limit), Boundary(text, limit);
            && chunks[0] == text[..b]
            && chunks[1..] == if Rest(text, b) == "" then [] else Split(Rest(text, b), limit)
  {
    hide Boundary, Rest;
  }

  /** No chunk but the first begins with a space. */
  lemma {:induction false} ChunksAreStripped(text: string, limit: int)
    requires 1 <= limit
    ensures var chunks := Split(text, limit);
            && |chunks| >= 1 && chunks[0] <= text
            && forall i | 1 <= i < |chunks| :: chunks[i] != "" && chunks[i][0] != ' '
    decreases |text|
  {
    hide Boundary, Rest;
    if limit < |text| {
      var b := Boundary(text, limit);
      var rest := Rest(text, b);
      SplitStep(text, limit);
      if rest != "" {
        RestIsStripped(text, b);
        ChunksAreStripped(rest, limit);
        ChunksFit(rest, limit);
        var chunks, others := Split(text, limit), Split(rest, limit);
        assert others[0] != "" && others[0][0] == rest[0];
        forall i | 1 <= i < |chunks| ensures chunks[i] != "" && chunks[i][0] != ' ' {
          assert chunks[i] == others[i - 1];
        }
      }
    }
  }

  /** What is dropped between two chunks is a gap. */
  lemma RestAfterGap(text: string, b: int) returns (gap: string)
    requires 0 <= b <= |text|
    ensures IsGap(gap) && text == text[..b] + gap + Rest(text, b)
  {
    hide DropLeading, Repeated;
    var tail := text[b..];
    var lines := DropLeading(tail, '\n');
    var rest := DropLeading(lines, ' ');
    DroppedLeading(tail, '\n');
    DroppedLeading(lines, ' ');
    gap := Repeated('\n', |tail| - |lines|) + Repeated(' ', |lines| - |rest|);
    assert tail == gap + rest;
    assert text == text[..b] + tail;
  }

  lemma EmptyGap()
    ensures IsGap("")
  {
    assert "" == Repeated('\n', 0) + Repeated(' ', 0);
  }

  /** The text is its chunks with a gap, perhaps an empty one, after each. */
  lemma {:induction false} ChunksMakeText(text: string, limit: int) returns (gaps: seq<string>)
    requires 1 <= limit
    ensures |gaps| == |Split(text, limit)| && (forall i | 0 <= i < |gaps| :: IsGap(gaps[i]))
    ensures text == Joined(Split(text, limit), gaps)
    decreases |text|
  {
    hide Boundary, Rest, IsGap;
    if |text| <= limit {
      EmptyGap();
      gaps := [""];
      assert Joined([text], [""]) == text + "" + Joined([], []);
    } else {
      var b := Boundary(text, limit);
      var gap := RestAfterGap(text, b);
      var rest := Rest(text, b);
      if rest == "" {
        gaps := [gap];
        assert Joined([text[..b]], [gap]) == text[..b] + gap + Joined([], []);
      } else {
        var more := ChunksMakeText(rest, limit);
        gaps := [gap] + more;
        assert Split(text, limit)[1..] == Split(rest, limit) && gaps[1..] == more;
      }
    }
  }

  // Nothing visible is lost

  function Visible(s: string): string {
    if s == "" then "" else (if s[0] == '\n' || s[0] == ' ' then "" else [s[0]]) + Visible(s[1..])
  }

  function Concat(chunks: seq<string>): string {
    if chunks == [] then "" else chunks[0] + Concat(chunks[1..])
  }

  lemma {:induction false} VisibleParts(s: string, t: string)
    ensures Visible(s + t) == Visible(s) + Visible(t)
    decreases |s|
  {
    if s == "" {
      assert s + t == t;
    } else {
      assert (s + t)[0] == s[0] && (s + t)[1..] == s[1..] + t;
      VisibleParts(s[1..], t);
    }
  }

  lemma {:induction false} NothingVisible(s: string)
    requires forall i | 0 <= i < |s| :: s[i] == '\n' || s[i] == ' '
    ensures Visible(s) == ""
    decreases |s|
  {
    if s != "" {
      NothingVisible(s[1..]);
    }
  }

  lemma {:induction false} JoinedIsVisible(chunks: seq<string>, gaps: seq<string>)
    requires |chunks| == |gaps| && forall i | 0 <= i < |gaps| :: IsGap(gaps[i])
    ensures Visible(Joined(chunks, gaps)) == Visible(Concat(chunks))
    decreases |chunks|
  {
    if chunks != [] {
      JoinedIsVisible(chunks[1..], gaps[1..]);
      NothingVisible(gaps[0]);
      VisibleParts(chunks[0] + gaps[0], Joined(chunks[1..], gaps[1..]));
      VisibleParts(chunks[0], gaps[0]);
      VisibleParts(chunks[0], Concat(chunks[1..]));
    }
  }

  /** Apart from newlines and spaces the chunks say, in order, all that the text says. */
  lemma SplittingKeepsText(text: string, limit: int)
    requires 1 <= limit
    ensures Visible(Concat(Split(text, limit))) == Visible(text)
  {
    var gaps := ChunksMakeText(text, limit);
    JoinedIsVisible(Split(text, limit), gaps);
  }

  /** Takes chunks off the front until the rest fits. */
  method SplitTelegramText(text: string, limit: int) returns (r: Result<seq<string>>)
    ensures r == if limit < 1 then Err(ValueError) else Ok(Split(text, limit))
  {
    if limit < 1 {
      return Err(ValueError);
    }
    hide Boundary, Rest, Split, Pending;
    var chunks: seq<string> := [];
    FirstChunk(text, limit);
    var remaining := text;
    while limit < |remaining|
      invariant chunks + Pending(chunks, remaining, limit) == Split(text, limit)
      decreases |remaining|
    {
      var boundary := Boundary(remaining, limit);
      OneMoreChunk(chunks, remaining, limit);
      chunks := chunks + [remaining[..boundary]];
      remaining := Rest(remaining, boundary);
      if remaining == "" {
        break;
      }
    }
    LastChunk(chunks, remaining, limit);
    if remaining != "" || chunks == [] {
      chunks := chunks + [remaining];
    }
    return Ok(chunks);
  }

  /** The chunks still to come. */
  ghost function Pending(chunks: seq<string>, remaining: string, limit: int): seq<string>
    requires 1 <= limit
  {
    if remaining == "" && chunks != [] then [] else Split(remaining, limit)
  }

  lemma FirstChunk(text: string, limit: int)
    requires 1 <= limit
    ensures [] + Pending([], text, limit) == Split(text, limit)
  {
  }

  lemma OneMoreChunk(chunks: seq<string>, remaining: string, limit: int)
    requires 1 <= limit < |remaining|
    ensures var b := Boundary(remaining, limit);
            chunks + Pending(chunks, remaining, limit) ==
            (chunks + [remaining[..b]]) + Pending(chunks + [remaining[..b]], Rest(remaining, b), limit)
  {
    hide Boundary, Rest;
  }

  lemma LastChunk(chunks: seq<string>, remaining: string, limit: int)
    requires 1 <= limit && (|remaining| <= limit || (remaining == "" && chunks != []))
    ensures chunks + Pending(chunks, remaining, limit) == if remaining != ""
            || chunks == [] then chunks + [remaining] else chunks
  {
  }
}
