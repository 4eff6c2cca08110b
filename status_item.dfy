/** The status-bar controller of the `spocon` target, reduced to what it
    does with text: it turns the output of the now-playing script into the
    line to show, formats a title and an artist as that line, and hands the
    line to its marquee view, creating the view on first use and keeping
    the last maximum width unless a new one is given. */
module StatusItem {
  import opened Common
  import SpoconMarquee

  // ---------------------------------------------------------------------
  // Trimming

  /** The characters of `whitespacesAndNewlines`: the Unicode separators
      (general categories Zs, Zl and Zp), U+0009 to U+000D, and U+0085. */
  predicate IsSpace(c: char)
  {
    || c == ' ' || c == '\U{00A0}' || c == '\U{1680}' || '\U{2000}' <= c <= '\U{200A}'
    || c == '\U{202F}' || c == '\U{205F}' || c == '\U{3000}'
    || c == '\U{2028}' || c == '\U{2029}'
    || '\t' <= c <= '\r' || c == '\U{0085}'
  }

  predicate AllSpace(s: string)
  {
    forall k :: 0 <= k < |s| ==> IsSpace(s[k])
  }

  /** Where the text proper starts: the first index at or after `from` that
      holds no space, or the end. */
  function FirstNonSpace(s: string, from: nat): (i: nat)
    requires from <= |s|
    ensures from <= i <= |s|
    ensures forall k :: from <= k < i ==> IsSpace(s[k])
    ensures i < |s| ==> !IsSpace(s[i])
    decreases |s| - from
  {
    if from == |s| || !IsSpace(s[from]) then from else FirstNonSpace(s, from + 1)
  }

  /** Where the text proper ends: going back from `hi`, the end of the last
      character before it that is not a space, and no further back than `lo`. */
  function EndOfNonSpace(s: string, lo: nat, hi: nat): (j: nat)
    requires lo <= hi <= |s|
    ensures lo <= j <= hi
    ensures forall k :: j <= k < hi ==> IsSpace(s[k])
    ensures lo < j ==> !IsSpace(s[j - 1])
    decreases hi - lo
  {
    if hi == lo || !IsSpace(s[hi - 1]) then hi else EndOfNonSpace(s, lo, hi - 1)
  }

  /** `trimmingCharacters(in: .whitespacesAndNewlines)`: what lies between
      the leading and the trailing spaces. It neither starts nor ends with a
      space, and it is empty exactly when `s` is all space. */
  function Trim(s: string): (r: string)
    ensures r != [] ==> !IsSpace(r[0]) && !IsSpace(r[|r| - 1])
    ensures r == [] <==> AllSpace(s)
  {
    var i := FirstNonSpace(s, 0);
    var j := EndOfNonSpace(s, i, |s|);
    assert i < |s| ==> i < j;
    s[i..j]
  }

  /** Trimming keeps a contiguous part of `s` and drops only spaces on
      either side of it. */
  lemma TrimInfix(s: string)
    ensures var i := FirstNonSpace(s, 0);
      var j := i + |Trim(s)|;
      && j <= |s| && Trim(s) == s[i..j]
      && (forall k :: 0 <= k < i ==> IsSpace(s[k]))
      && (forall k :: j <= k < |s| ==> IsSpace(s[k]))
  {
  }

  /** Text with no space at either end is left as it is. */
  lemma TrimClean(s: string)
    requires s != [] ==> !IsSpace(s[0]) && !IsSpace(s[|s| - 1])
    ensures Trim(s) == s
  {
    if s != [] {
      assert FirstNonSpace(s, 0) == 0;
      assert s[0..|s|] == s;
    }
  }

  lemma TrimIdempotent(s: string)
    ensures Trim(Trim(s)) == Trim(s)
  {
    TrimClean(Trim(s));
  }

  /** Spaces appended to clean text are all that trimming removes. */
  lemma TrimPadding(s: string, pad: string)
    requires s != [] && !IsSpace(s[0]) && !IsSpace(s[|s| - 1])
    requires AllSpace(pad)
    ensures Trim(s + pad) == s
  {
    var t := s + pad;
    assert t[0] == s[0];
    assert FirstNonSpace(t, 0) == 0;
    var j := EndOfNonSpace(t, 0, |t|);
    assert t[|s| - 1] == s[|s| - 1];
    forall k | |s| <= k < |t|
      ensures IsSpace(t[k])
    {
      assert t[k] == pad[k - |s|];
    }
    assert j == |s|;
    assert t[0..|s|] == s;
  }

  // ---------------------------------------------------------------------
  // Splitting on "||"

  /** Whether the separator "||" starts at index `j` of `s`. */
  predicate SeparatorAt(s: string, j: int)
  {
    0 <= j && j + 1 < |s| && s[j] == '|' && s[j + 1] == '|'
  }

  predicate NoSeparator(s: string)
  {
    forall j :: 0 <= j < |s| ==> !SeparatorAt(s, j)
  }

  predicate EndsWithBar(s: string)
  {
    s != [] && s[|s| - 1] == '|'
  }

  /** The leftmost separator at or after `from`. */
  function FindSeparator(s: string, from: nat): (r: Option<nat>)
    ensures r.Some? ==> from <= r.value && r.value + 2 <= |s| && SeparatorAt(s, r.value)
    ensures r.Some? ==> forall j :: from <= j < r.value ==> !SeparatorAt(s, j)
    ensures r.None? ==> forall j :: from <= j < |s| ==> !SeparatorAt(s, j)
    decreases |s| - from
  {
    if from + 2 > |s| then None
    else if SeparatorAt(s, from) then Some(from)
    else FindSeparator(s, from + 1)
  }

  /** `components(separatedBy: "||")`: the pieces between the separators,
      found left to right; there is always at least one, and no piece holds
      a separator. */
  function Components(s: string): (parts: seq<string>)
    ensures |parts| >= 1
    ensures forall i :: 0 <= i < |parts| ==> NoSeparator(parts[i])
    decreases |s|
  {
    match FindSeparator(s, 0)
    case None => [s]
    case Some(k) =>
      assert NoSeparator(s[..k]) by {
        forall j | 0 <= j < k
          ensures !SeparatorAt(s[..k], j)
        {
          assert !SeparatorAt(s, j);
        }
      }
      [s[..k]] + Components(s[k + 2..])
  }

  /** The pieces put back together with "||" between them. */
  function Join(parts: seq<string>): string
    requires |parts| >= 1
  {
    if |parts| == 1 then parts[0] else parts[0] + "||" + Join(parts[1..])
  }

  /** Pieces that splitting gives back unchanged: none holds a separator,
      and none but the last ends with a bar, which would merge with the
      separator after it. */
  predicate Splittable(parts: seq<string>)
  {
    && |parts| >= 1
    && (forall i :: 0 <= i < |parts| ==> NoSeparator(parts[i]))
    && (forall i :: 0 <= i < |parts| - 1 ==> !EndsWithBar(parts[i]))
  }

  /** Splitting and joining again gives back the text. */
  lemma {:induction false} JoinComponents(s: string)
    ensures Join(Components(s)) == s
    decreases |s|
  {
    match FindSeparator(s, 0)
    case None =>
    case Some(k) =>
      var rest := s[k + 2..];
      JoinComponents(rest);
      var parts := Components(s);
      assert parts[1..] == Components(rest);
      assert s == s[..k] + "||" + rest;
  }

  /** Where the first piece ends, the separator that follows is the leftmost. */
  lemma FirstSeparator(p: string, rest: string)
    requires NoSeparator(p) && !EndsWithBar(p)
    ensures FindSeparator(p + "||" + rest, 0) == Some(|p|)
  {
    var s := p + "||" + rest;
    assert SeparatorAt(s, |p|);
    forall j | 0 <= j < |p|
      ensures !SeparatorAt(s, j)
    {
      if j + 1 < |p| {
        assert !SeparatorAt(p, j);
      } else {
        assert s[j] == p[|p| - 1];
      }
    }
  }

  lemma NoSeparatorNotFound(p: string)
    requires NoSeparator(p)
    ensures FindSeparator(p, 0) == None
  {
  }

  /** A first piece with no separator and no final bar splits off whole. */
  lemma ComponentsStep(p: string, rest: string)
    requires NoSeparator(p) && !EndsWithBar(p)
    ensures Components(p + "||" + rest) == [p] + Components(rest)
  {
    var s := p + "||" + rest;
    FirstSeparator(p, rest);
    assert s[..|p|] == p;
    assert s[|p| + 2..] == rest;
  }

  /** Joining pieces that splitting can tell apart and splitting again gives
      back the pieces. */
  lemma {:induction false} ComponentsJoin(parts: seq<string>)
    requires Splittable(parts)
    ensures Components(Join(parts)) == parts
  {
    if |parts| == 1 {
      NoSeparatorNotFound(parts[0]);
    } else {
      var tail := parts[1..];
      assert Splittable(tail) by {
        forall i | 0 <= i < |tail| - 1
          ensures !EndsWithBar(tail[i])
        {
          assert tail[i] == parts[i + 1];
        }
      }
      ComponentsJoin(tail);
      ComponentsStep(parts[0], Join(tail));
      assert parts == [parts[0]] + tail;
    }
  }

  // ---------------------------------------------------------------------
  // The script's output

  /** What one poll of the script leads to: nothing when its output could
      not be read as UTF-8 (or it could not be run), clearing the display
      when the trimmed output is empty, otherwise showing a title and an
      artist. */
  datatype Outcome = Ignore | Clear | Show(title: string, artist: string)

  /** The handling of the script's output: trim, treat empty as "not
      playing", split on "||", take the first piece as the title and the
      second, or "" when there is none, as the artist. */
  function ParseOutput(decoded: Option<string>): (o: Outcome)
    ensures decoded.None? <==> o.Ignore?
    ensures decoded.Some? ==> (o.Clear? <==> AllSpace(decoded.value))
  {
    match decoded
    case None => Ignore
    case Some(raw) =>
      var s := Trim(raw);
      if s == [] then Clear
      else
        var parts := Components(s);
        Show(parts[0], if |parts| > 1 then parts[1] else "")
  }

  /** Clean output made of splittable pieces: the title is the first piece,
      the artist the second, and any further piece is ignored. Trailing
      spaces (the newline `osascript` prints) make no difference. */
  lemma ParseJoined(parts: seq<string>, pad: string)
    requires Splittable(parts) && |parts| >= 2
    requires !IsSpace(Join(parts)[0]) && !IsSpace(Join(parts)[|Join(parts)| - 1])
    requires AllSpace(pad)
    ensures ParseOutput(Some(Join(parts) + pad)) == Show(parts[0], parts[1])
  {
    TrimPadding(Join(parts), pad);
    ComponentsJoin(parts);
  }

  /** What the script returns while a track plays, `t & "||" & a`, followed
      by a newline, parses back to the title and the artist, as long as
      neither holds "||", the title does not end with a bar, and neither has
      a space at its outer end. */
  lemma ParseRoundTrip(t: string, a: string)
    requires NoSeparator(t) && NoSeparator(a) && !EndsWithBar(t)
    requires t != [] ==> !IsSpace(t[0])
    requires a != [] ==> !IsSpace(a[|a| - 1])
    ensures ParseOutput(Some(t + "||" + a + "\n")) == Show(t, a)
  {
    var parts := [t, a];
    assert Join(parts) == t + "||" + a by {
      assert parts[1..] == [a];
    }
    var s := t + "||" + a;
    assert s[0] == if t == [] then '|' else t[0];
    assert s[|s| - 1] == if a == [] then '|' else a[|a| - 1];
    ParseJoined(parts, "\n");
  }

  /** Output without a separator is all title, with an empty artist. */
  lemma ParseNoArtist(s: string, pad: string)
    requires s != [] && !IsSpace(s[0]) && !IsSpace(s[|s| - 1]) && NoSeparator(s)
    requires AllSpace(pad)
    ensures ParseOutput(Some(s + pad)) == Show(s, "")
  {
    TrimPadding(s, pad);
    NoSeparatorNotFound(s);
  }

  /** A title that ends with a bar loses it to the artist: "x|" and "y" come
      out as "x" and "|y". */
  lemma ParseAmbiguousTitle()
    ensures ParseOutput(Some("x|" + "||" + "y")) == Show("x", "|y")
  {
    var s := "x" + "||" + "|y";
    assert "x|" + "||" + "y" == s;
    TrimClean(s);
    assert NoSeparator("x") && !EndsWithBar("x");
    FirstSeparator("x", "|y");
    assert s[..1] == "x" && s[3..] == "|y";
    assert NoSeparator("|y") by {
      assert !SeparatorAt("|y", 0);
    }
    NoSeparatorNotFound("|y");
    assert Components("|y") == ["|y"];
    assert Components(s) == ["x", "|y"];
  }

  // ---------------------------------------------------------------------
  // Formatting

  /** `"♪ \(music) / \(artist)"`. */
  function NowPlayingLine(music: string, artist: string): (line: string)
    ensures |line| == |music| + |artist| + 5
    ensures line[..2] == "\U{266A} " && line[2..2 + |music|] == music
    ensures line[2 + |music|..5 + |music|] == " / " && line[5 + |music|..] == artist
  {
    "\U{266A} " + music + " / " + artist
  }

  datatype NowPlaying = NowPlaying(music: string, artist: string)

  function Lookup(dict: map<string, string>, key: string): string
  {
    if key in dict then dict[key] else ""
  }

  /** The fields of a `["music": …, "artist": …]` payload, "" for a missing key. */
  function FieldsFromDictionary(dict: map<string, string>): (info: NowPlaying)
    ensures "music" in dict ==> info.music == dict["music"]
    ensures "music" !in dict ==> info.music == ""
    ensures "artist" in dict ==> info.artist == dict["artist"]
    ensures "artist" !in dict ==> info.artist == ""
  {
    NowPlaying(Lookup(dict, "music"), Lookup(dict, "artist"))
  }

  /** What the display is set to after one poll, if anything. */
  function DisplayTextFor(o: Outcome): (text: Option<string>)
    ensures o.Ignore? <==> text.None?
    ensures o.Clear? ==> text == Some("")
    ensures o.Show? ==> text == Some(NowPlayingLine(o.title, o.artist))
  {
    match o
    case Ignore => None
    case Clear => Some("")
    case Show(t, a) => Some(NowPlayingLine(t, a))
  }

  /** A playing track's output, as the script prints it, ends up on the
      display as "♪ title / artist". */
  lemma ScriptOutputDisplayed(t: string, a: string)
    requires NoSeparator(t) && NoSeparator(a) && !EndsWithBar(t)
    requires t != [] ==> !IsSpace(t[0])
    requires a != [] ==> !IsSpace(a[|a| - 1])
    ensures DisplayTextFor(ParseOutput(Some(t + "||" + a + "\n"))) == Some(NowPlayingLine(t, a))
  {
    ParseRoundTrip(t, a);
  }

  /** Under the controller the view's bounds and its container are both the
      maximum width, so the two fit tests agree: text that overflows when
      set is text whose start scrolls, and the cycle of
      `SpoconMarquee.CycleRepeats` begins. */
  lemma ControllerTextScrolls(e: SpoconMarquee.Engine, text: string, typographicWidth: real, width: real)
    requires SpoconMarquee.Inv(e) && e.alive && e.visibleWidth == width
    requires SpoconMarquee.MeasureTextWidth(typographicWidth) > width
    ensures var r := SpoconMarquee.AfterSetText(e, text, typographicWidth, width);
      && 0 < |r.queue| && SpoconMarquee.StartsScroll(r, |r.queue| - 1)
      && r.textWidth > r.visibleWidth
      && (r.now <= r.queue[|r.queue| - 1].due <==> 0.0 <= e.startDelay)
  {
    SpoconMarquee.SetTextWhenOverflows(e, text, typographicWidth, width);
  }

  // ---------------------------------------------------------------------
  // The controller

  /** `NSStatusItem.variableLength`. */
  const VariableLength: real := -1.0
  const DefaultMaxWidth: real := 200.0
  /** The text `setup` shows before the first poll. */
  const Placeholder: string := "\U{266A} \U{66F2}\U{540D}-------------------------/------------------\U{30A2}\U{30FC}\U{30C6}\U{30A3}\U{30B9}\U{30C8}"

  class StatusItemController {
    var maxWidthPoints: real
    /** The status item's length. */
    var statusLength: real
    var marqueeView: SpoconMarquee.MarqueeView?
    /** Whether the status item has a button to host the view. */
    const hasButton: bool
    /** The typographic width of a text in the button's font. */
    const measure: string -> real

    /** The view, once there is one, is as wide as the maximum width and its
        container is too; the status item has that length. */
    ghost predicate Valid()
      reads this, marqueeView
    {
      && (marqueeView == null ==> statusLength == VariableLength)
      && (marqueeView != null ==>
            && hasButton && marqueeView.Valid()
            && marqueeView.visibleWidth == maxWidthPoints
            && marqueeView.containerWidth == maxWidthPoints
            && statusLength == maxWidthPoints)
    }

    /** A controller whose status item was just created with variable length. */
    constructor (hasButton: bool, measure: string -> real)
      ensures Valid()
      ensures this.hasButton == hasButton && this.measure == measure
      ensures maxWidthPoints == DefaultMaxWidth && statusLength == VariableLength && marqueeView == null
    {
      this.hasButton := hasButton;
      this.measure := measure;
      maxWidthPoints := DefaultMaxWidth;
      statusLength := VariableLength;
      marqueeView := null;
    }

    /** `setup`, without the menu and the polling: show the placeholder. */
    method Setup()
      requires Valid()
      modifies this, marqueeView
      ensures Valid()
      ensures SetTextDone(this, Placeholder, None)
    {
      SetText(Placeholder, None);
    }

    method SetText(text: string, maxWidth: Option<real>)
      requires Valid()
      modifies this, marqueeView
      ensures Valid()
      ensures SetTextDone(this, text, maxWidth)
    {
      if maxWidth.Some? {
        maxWidthPoints := maxWidth.value;
      }
      if !hasButton {
        return;
      }
      statusLength := maxWidthPoints;
      if marqueeView == null {
        marqueeView := new SpoconMarquee.MarqueeView(maxWidthPoints);
      } else {
        marqueeView.SetFrameWidth(maxWidthPoints);
      }
      marqueeView.SetText(text, measure(text), maxWidthPoints);
    }

    method SetNowPlaying(music: string, artist: string, maxWidth: Option<real>)
      requires Valid()
      modifies this, marqueeView
      ensures Valid()
      ensures SetTextDone(this, NowPlayingLine(music, artist), maxWidth)
    {
      SetText(NowPlayingLine(music, artist), maxWidth);
    }

    method SetNowPlayingInfo(info: NowPlaying, maxWidth: Option<real>)
      requires Valid()
      modifies this, marqueeView
      ensures Valid()
      ensures SetTextDone(this, NowPlayingLine(info.music, info.artist), maxWidth)
    {
      SetNowPlaying(info.music, info.artist, maxWidth);
    }

    method SetNowPlayingFrom(dict: map<string, string>, maxWidth: Option<real>)
      requires Valid()
      modifies this, marqueeView
      ensures Valid()
      ensures SetTextDone(this, NowPlayingLine(Lookup(dict, "music"), Lookup(dict, "artist")), maxWidth)
    {
      var info := FieldsFromDictionary(dict);
      SetNowPlaying(info.music, info.artist, maxWidth);
    }

    /** The main-queue half of one poll: `decoded` is the script's output
        read as UTF-8, or None when that failed or the script could not run. */
    method HandleScriptOutput(decoded: Option<string>)
      requires Valid()
      modifies this, marqueeView
      ensures Valid()
      ensures DisplayTextFor(ParseOutput(decoded)).None? ==>
        unchanged(this) && (marqueeView != null ==> unchanged(marqueeView))
      ensures DisplayTextFor(ParseOutput(decoded)).Some? ==>
        SetTextDone(this, DisplayTextFor(ParseOutput(decoded)).value, None)
    {
      match ParseOutput(decoded)
      case Ignore =>
      case Clear => SetText("", None);
      case Show(title, artist) => SetNowPlaying(title, artist, None);
    }
  }

  /** What `setText` does: a given maximum width replaces the previous one,
      none keeps it. With no button that is all. Otherwise the status item
      takes that length; the first call creates the view with that width,
      later calls keep the same view and only set its frame; and the view
      is given the text with that width as its container. */
  twostate predicate SetTextDone(c: StatusItemController, text: string, maxWidth: Option<real>)
    reads c, c.marqueeView
  {
    && c.maxWidthPoints == (if maxWidth.Some? then maxWidth.value else old(c.maxWidthPoints))
    && if !c.hasButton then
         c.marqueeView == old(c.marqueeView) && c.statusLength == old(c.statusLength)
       else
         && c.statusLength == c.maxWidthPoints
         && c.marqueeView != null
         && (old(c.marqueeView) == null ==> fresh(c.marqueeView))
         && (old(c.marqueeView) != null ==> c.marqueeView == old(c.marqueeView))
         && c.marqueeView.State() == SpoconMarquee.AfterSetText(
              if old(c.marqueeView) == null then SpoconMarquee.Initial(c.maxWidthPoints)
              else SpoconMarquee.AfterResize(old(c.marqueeView.State()), c.maxWidthPoints),
              text, c.measure(text), c.maxWidthPoints)
  }
}
