/** A note drawn as a planet: its morph between circle and card, its
    initial, word count and the hover tooltip with a relative time. */
module PlanetView {
  import opened Domain
  import Seqs
  import Text
  import SpaceTheme

  /** `lerp(a, b, t)`. */
  function Lerp(a: real, b: real, t: real): (r: real)
    ensures t == 0.0 ==> r == a
    ensures t == 1.0 ==> r == b
    ensures 0.0 <= t <= 1.0 && a <= b ==> a <= r <= b
    ensures 0.0 <= t <= 1.0 && b <= a ==> b <= r <= a
  {
    LerpBetween(a, b, t);
    a + (b - a) * t
  }

  lemma LerpBetween(a: real, b: real, t: real)
    ensures 0.0 <= t <= 1.0 && a <= b ==> 0.0 <= (b - a) * t <= b - a
    ensures 0.0 <= t <= 1.0 && b <= a ==> b - a <= (b - a) * t <= 0.0
  {
    if 0.0 <= t <= 1.0 {
      var d := if a <= b then b - a else a - b;
      SpaceTheme.MulNonNegative(d, t);
      SpaceTheme.MulNonNegative(d, 1.0 - t);
      assert d * (1.0 - t) == d - d * t;
      assert (b - a) * t == if a <= b then d * t else -(d * t);
    }
  }

  /** The drawn width, height and corner radius. */
  datatype Shape = Shape(width: real, height: real, borderRadius: real)

  /** The card corner radius a fully morphed planet has. */
  const CARD_CORNER: real := 24.0

  /** The drawn shape at morph progress `morph`: the circle at 0, the card at 1. */
  function PlanetShape(radius: real, cardWidth: real, cardHeight: real, morph: real): (r: Shape)
    ensures morph == 0.0 ==> r == Shape(2.0 * radius, 2.0 * radius, radius)
    ensures morph == 1.0 ==> r == Shape(cardWidth, cardHeight, CARD_CORNER)
  {
    Shape(Lerp(radius * 2.0, cardWidth, morph), Lerp(radius * 2.0, cardHeight, morph), Lerp(radius, CARD_CORNER, morph))
  }

  /** Zoomed out the planet is a circle of its radius; zoomed in it is the
      card. */
  lemma ShapeAtEnds(radius: real, cardWidth: real, cardHeight: real, zoom: real)
    ensures zoom <= SpaceTheme.MORPH_ZOOM_START ==>
              PlanetShape(radius, cardWidth, cardHeight, SpaceTheme.GetMorphProgress(zoom))
              == Shape(2.0 * radius, 2.0 * radius, radius)
    ensures zoom >= SpaceTheme.MORPH_ZOOM_END ==>
              PlanetShape(radius, cardWidth, cardHeight, SpaceTheme.GetMorphProgress(zoom))
              == Shape(cardWidth, cardHeight, CARD_CORNER)
  {
  }

  /** In between, each dimension lies between its circle and card value. */
  lemma ShapeBetween(radius: real, cardWidth: real, cardHeight: real, zoom: real)
    requires 2.0 * radius <= cardWidth && 2.0 * radius <= cardHeight
    ensures var s := PlanetShape(radius, cardWidth, cardHeight, SpaceTheme.GetMorphProgress(zoom));
            2.0 * radius <= s.width <= cardWidth && 2.0 * radius <= s.height <= cardHeight
  {
  }

  /** `(note.title || "?")[0].toUpperCase()`, on ASCII letters. */
  function Initial(title: string): (r: string)
    ensures |r| == 1
    ensures title == [] ==> r == "?"
    ensures title != [] ==> r[0] == Text.UpperChar(title[0])
  {
    var source := if title == [] then "?" else title;
    [Text.UpperChar(source[0])]
  }

  /** The markdown markers the preview drops. */
  predicate IsMarkdownMarker(c: char)
  {
    c == '#' || c == '*' || c == '_' || c == '~' || c == '`' || c == '>'
  }

  function NotMarker(c: char): bool
  {
    !IsMarkdownMarker(c)
  }

  /** The content with tags and markdown markers removed. */
  function PlainText(content: string): (r: string)
    ensures forall i :: 0 <= i < |r| ==> !IsMarkdownMarker(r[i])
  {
    var r := Seqs.Filter(SpaceTheme.StripTags(content), NotMarker);
    assert forall i :: 0 <= i < |r| ==> r[i] in r && NotMarker(r[i]);
    r
  }

  /** The card preview: the first hundred characters of the plain text. */
  function Preview(plainText: string): (r: string)
    ensures r <= plainText
    ensures |r| == if |plainText| < 100 then |plainText| else 100
  {
    Seqs.Take(plainText, 100)
  }

  /** `split(/\s+/).filter(Boolean).length`: one word per maximal run of
      non-space characters. */
  function WordCount(plainText: string): (n: nat)
    ensures n == Text.WordStarts(plainText, |plainText|)
  {
    Text.TokensAreMaximalRuns(plainText);
    |Text.Tokens(plainText)|
  }

  /** The word count is zero exactly for text made of white space only. */
  lemma {:induction false} WordCountZero(s: string)
    ensures WordCount(s) == 0 <==> forall i :: 0 <= i < |s| ==> Text.IsSpace(s[i])
    decreases |s|
  {
    if s != [] && Text.IsSpace(s[0]) {
      WordCountZero(s[1..]);
      assert forall i :: 1 <= i < |s| ==> s[i] == s[1..][i - 1];
    }
  }

  /** The words account for every non-space character of the text. */
  lemma WordsCoverText(s: string)
    ensures Text.Concat(Text.Tokens(s)) == Seqs.Filter(s, Text.NotSpace)
  {
    Text.TokensCoverText(s);
  }

  /** `Math.floor(diffMs / 60000)`. */
  function DiffMinutes(nowMs: int, updatedMs: int): (m: int)
    ensures m * 60000 <= nowMs - updatedMs < (m + 1) * 60000
  {
    (nowMs - updatedMs) / 60000
  }

  datatype RelativeTime = JustNow | MinutesAgo(m: nat) | HoursAgo(h: nat) | DaysAgo(d: nat)

  /** The relative-time buckets. */
  function Bucket(diffMins: int): (r: RelativeTime)
    ensures r.JustNow? <==> diffMins < 1
    ensures r.MinutesAgo? <==> 1 <= diffMins < 60
    ensures r.HoursAgo? <==> 60 <= diffMins < 1440
    ensures r.DaysAgo? <==> diffMins >= 1440
  {
    if diffMins < 1 then JustNow
    else if diffMins < 60 then MinutesAgo(diffMins)
    else if diffMins < 1440 then HoursAgo(diffMins / 60)
    else DaysAgo(diffMins / 1440)
  }

  /** Every bucket names a non-zero count that rounds the elapsed minutes
      down to its unit: minutes below an hour, hours below a day. */
  lemma BucketBrackets(diffMins: int)
    ensures var r := Bucket(diffMins);
            (r.MinutesAgo? ==> 1 <= r.m < 60 && r.m == diffMins)
            && (r.HoursAgo? ==> 1 <= r.h < 24 && r.h * 60 <= diffMins < (r.h + 1) * 60)
            && (r.DaysAgo? ==> 1 <= r.d && r.d * 1440 <= diffMins < (r.d + 1) * 1440)
  {
  }

  /** More elapsed time never shows a smaller unit. */
  lemma BucketMonotone(m1: int, m2: int)
    requires m1 <= m2
    ensures Rank(Bucket(m1)) <= Rank(Bucket(m2))
  {
  }

  function Rank(r: RelativeTime): nat
  {
    match r
    case JustNow => 0
    case MinutesAgo(_) => 1
    case HoursAgo(_) => 2
    case DaysAgo(_) => 3
  }

  /** The text for a bucket: "just now", or the count in decimal followed
      by its unit. */
  function RenderRelative(r: RelativeTime): (s: string)
    ensures r.JustNow? <==> s == "just now"
    ensures r.MinutesAgo? ==> s == Text.NatToString(r.m) + "m ago" && Text.DigitsValue(Text.NatToString(r.m)) == r.m
    ensures r.HoursAgo? ==> s == Text.NatToString(r.h) + "h ago" && Text.DigitsValue(Text.NatToString(r.h)) == r.h
    ensures r.DaysAgo? ==> s == Text.NatToString(r.d) + "d ago" && Text.DigitsValue(Text.NatToString(r.d)) == r.d
  {
    var s := match r
      case JustNow => "just now"
      case MinutesAgo(m) => Text.NatToString(m) + "m ago"
      case HoursAgo(h) => Text.NatToString(h) + "h ago"
      case DaysAgo(d) => Text.NatToString(d) + "d ago";
    assert !r.JustNow? ==> s[|s| - 1] == 'o';
    s
  }

  /** The relative time shown for a note last updated at `updatedMs` when
      the clock reads `nowMs`. */
  function RelativeTimeText(nowMs: int, updatedMs: int): (s: string)
    ensures s == "just now" <==> nowMs - updatedMs < 60000
    ensures var m := (nowMs - updatedMs) / 60000;
            (1 <= m < 60 ==> s == Text.NatToString(m) + "m ago")
            && (60 <= m < 1440 ==> s == Text.NatToString(m / 60) + "h ago")
            && (m >= 1440 ==> s == Text.NatToString(m / 1440) + "d ago")
  {
    RenderRelative(Bucket(DiffMinutes(nowMs, updatedMs)))
  }

  /** The tooltip: the title (or "Untitled"), the word count and the
      relative time while the planet is mostly a circle; empty once it is
      mostly a card. */
  function TooltipTitle(title: string, wordCount: nat, relative: string, morph: real): (r: string)
    ensures morph >= 0.5 ==> r == ""
    ensures morph < 0.5 ==> (title != [] ==> title <= r) && (title == [] ==> "Untitled" <= r)
  {
    if morph < 0.5 then
      (if title == [] then "Untitled" else title) + " \U{00B7} " + Text.NatToString(wordCount) + " words \U{00B7} " + relative
    else ""
  }

  /** Zoomed in to the card the planet shows no tooltip. */
  lemma NoTooltipWhenZoomedIn(title: string, wordCount: nat, relative: string, zoom: real)
    requires zoom >= SpaceTheme.MORPH_ZOOM_END
    ensures TooltipTitle(title, wordCount, relative, SpaceTheme.GetMorphProgress(zoom)) == ""
  {
  }
}
