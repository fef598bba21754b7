/**
 * `generateSVG`: the badge document for an optional track. The template is
 * reproduced piece by piece, with the interpolated values in between.
 * Track text is interpolated raw (no markup escaping), and the cover-art
 * area is always the fixed grey placeholder: `image` and `url` are not read.
 */
module Badge {
  import opened Wrappers
  import opened Text
  import opened Tracks

  datatype FontSizes = FontSizes(title: string, artist: string, album: string)

  /** `STYLE_CONFIG`: the one, fixed style configuration. */
  datatype StyleConfig = StyleConfig(
    backgroundColor: string,
    textColor: string,
    accentColor: string,
    fontFamily: string,
    fontSize: FontSizes)

  const Style: StyleConfig := StyleConfig(
    "#1a1a1a", "#ffffff", "#1db954", "Segoe UI, Arial, sans-serif",
    FontSizes("16px", "14px", "12px"))

  /** The 400 x 120 canvas, as its numbers are interpolated. */
  const WidthText: string := "400"
  const HeightText: string := "120"

  /** Colour of the status line when the track is not playing. */
  const MutedColor: string := "#888888"

  /** Truncation limits of the three text lines. */
  const TitleLimit: nat := 25
  const ArtistLimit: nat := 25
  const AlbumLimit: nat := 30

  // ---------------------------------------------------------------------------
  // The placeholder document (no track)

  const NotPlayingText: string := "Not playing anything"

  const PlaceholderLead: string :=
    "\n      <svg width=\"" + WidthText + "\" height=\"" + HeightText + "\" xmlns=\"http://www.w3.org/2000/svg\">"
    + "\n        <rect width=\"100%\" height=\"100%\" fill=\"" + Style.backgroundColor + "\" rx=\"8\"/>"
    + "\n        <text x=\"20\" y=\"60\" font-family=\"" + Style.fontFamily + "\" font-size=\"16px\" fill=\""
    + Style.textColor + "\">"
    + "\n          🎵 "

  const PlaceholderTail: string :=
    "\n        </text>\n      </svg>\n    "

  const Placeholder: string := PlaceholderLead + NotPlayingText + PlaceholderTail

  // ---------------------------------------------------------------------------
  // The track document, between its interpolations

  /** From the opening of the document up to the status colour. */
  const StyleLead: string :=
    "\n    <svg width=\"" + WidthText + "\" height=\"" + HeightText + "\" xmlns=\"http://www.w3.org/2000/svg\">"
    + "\n      <defs>\n        <style>"
    + "\n          .bg { fill: " + Style.backgroundColor + "; }"
    + "\n          .title { font-family: " + Style.fontFamily + "; font-size: " + Style.fontSize.title
    + "; fill: " + Style.textColor + "; font-weight: bold; }"
    + "\n          .artist { font-family: " + Style.fontFamily + "; font-size: " + Style.fontSize.artist
    + "; fill: #cccccc; }"
    + "\n          .album { font-family: " + Style.fontFamily + "; font-size: " + Style.fontSize.album
    + "; fill: #888888; }"
    + "\n          .status { font-family: " + Style.fontFamily + "; font-size: 12px; fill: "

  /**
   * From the status colour to the status element: the end of the style sheet,
   * the background and the fixed grey cover-art placeholder.
   */
  const CoverArt: string :=
    "; }\n          .link { cursor: pointer; }\n        </style>\n      </defs>\n      "
    + "\n      <!-- 배경 -->"
    + "\n      <rect width=\"100%\" height=\"100%\" class=\"bg\" rx=\"8\"/>\n      "
    + "\n      <!-- 앨범 커버 (placeholder) -->"
    + "\n      <rect x=\"15\" y=\"15\" width=\"90\" height=\"90\" fill=\"#333\" rx=\"4\"/>"
    + "\n      <text x=\"60\" y=\"65\" text-anchor=\"middle\" font-family=\"" + Style.fontFamily
    + "\" font-size=\"30px\" fill=\"#666\">🎵</text>\n      "
    + "\n      <!-- 곡 정보 -->"
    + Break

  /** The line break and indentation between two elements of the document body. */
  const Break: string := "\n      "

  // Opening tags of the four text lines.
  const StatusTag: string := "<text x=\"120\" y=\"25\" class=\"status\">"
  const TitleTag: string := "<text x=\"120\" y=\"45\" class=\"title\">"
  const ArtistTag: string := "<text x=\"120\" y=\"65\" class=\"artist\">"
  const AlbumTag: string := "<text x=\"120\" y=\"85\" class=\"album\">"
  const TextEnd: string := "</text>"

  /** From the album line to the indicator slot. */
  const IndicatorLead: string := Break + Break + "<!-- 재생 중일 때 애니메이션 -->" + Break

  /** The pulsing dot with its opacity animation. */
  const Pulse: string :=
    "\n        <circle cx=\"370\" cy=\"25\" r=\"4\" fill=\"" + Style.accentColor + "\">"
    + "\n          <animate attributeName=\"opacity\" values=\"1;0.5;1\" dur=\"1.5s\" repeatCount=\"indefinite\"/>"
    + "\n        </circle>\n      "

  const Closing: string := "\n    </svg>\n  "

  const NowPlayingLabel: string := "🎵 Now Playing"
  const RecentlyPlayedLabel: string := "🎵 Recently Played"

  function StatusColor(playing: bool): string
  {
    if playing then Style.accentColor else MutedColor
  }

  function StatusLabel(playing: bool): string
  {
    if playing then NowPlayingLabel else RecentlyPlayedLabel
  }

  /** A text line: `tag`, the text interpolated raw, the closing tag. */
  function Element(tag: string, text: string): string
  {
    tag + text + TextEnd
  }

  lemma ElementText(tag: string, text: string, i: nat)
    requires i < |text|
    ensures |tag| + i < |Element(tag, text)| && Element(tag, text)[|tag| + i] == text[i]
  {
  }

  function TitleElement(t: Track): string
  {
    Element(TitleTag, Truncate(t.name, TitleLimit))
  }

  function ArtistElement(t: Track): string
  {
    Element(ArtistTag, "by " + Truncate(t.artist, ArtistLimit))
  }

  function AlbumElement(t: Track): string
  {
    Element(AlbumTag, Truncate(t.album, AlbumLimit))
  }

  /**
   * The long fixed runs of the track template. The badge lemmas below are
   * proved for any frame and then applied to the script's own, `ScriptFrame`.
   */
  datatype Frame = Frame(styleLead: string, coverArt: string, indicatorLead: string, pulse: string, closing: string)

  const ScriptFrame: Frame := Frame(StyleLead, CoverArt, IndicatorLead, Pulse, Closing)

  /** The pieces of a track document, in order: the template with its interpolations. */
  function PartsIn(f: Frame, t: Track): seq<string>
  {
    [ f.styleLead, StatusColor(t.isPlaying), f.coverArt,
      Element(StatusTag, StatusLabel(t.isPlaying)),
      Break, TitleElement(t),
      Break, ArtistElement(t),
      Break, AlbumElement(t),
      f.indicatorLead, if t.isPlaying then f.pulse else "",
      f.closing ]
  }

  /** `generateSVG(track)`. */
  function Render(track: Option<Track>): string
  {
    match track
    case None => Placeholder
    case Some(t) => Concat(PartsIn(ScriptFrame, t))
  }

  // ---------------------------------------------------------------------------
  // Offsets in a track document

  /** Where the status element starts; the two colours have the same length. */
  function StatusOffsetIn(f: Frame): nat
  {
    |f.styleLead| + |Style.accentColor| + |f.coverArt|
  }

  /** Where the title element starts: after the status line, whose length depends on the label. */
  function TitleOffsetIn(f: Frame, playing: bool): nat
  {
    StatusOffsetIn(f) + |Element(StatusTag, StatusLabel(playing))| + |Break|
  }

  /** Where the artist element starts: after the title line. */
  function ArtistOffsetIn(f: Frame, t: Track): nat
  {
    TitleOffsetIn(f, t.isPlaying) + |TitleElement(t)| + |Break|
  }

  /** Where the album element starts: after the artist line. */
  function AlbumOffsetIn(f: Frame, t: Track): nat
  {
    ArtistOffsetIn(f, t) + |ArtistElement(t)| + |Break|
  }

  lemma PrefixOffsetsIn(f: Frame, t: Track)
    ensures Concat(PartsIn(f, t)[..1]) == f.styleLead
    ensures |Concat(PartsIn(f, t)[..3])| == StatusOffsetIn(f)
    ensures |Concat(PartsIn(f, t)[..5])| == TitleOffsetIn(f, t.isPlaying)
  {
    var parts := PartsIn(f, t);
    assert parts[..1][..0] == [];
    assert parts[..2][..1] == parts[..1];
    assert parts[..3][..2] == parts[..2];
    assert parts[..4][..3] == parts[..3];
    assert parts[..5][..4] == parts[..4];
  }

  lemma LowerOffsetsIn(f: Frame, t: Track)
    ensures |Concat(PartsIn(f, t)[..7])| == ArtistOffsetIn(f, t)
    ensures |Concat(PartsIn(f, t)[..9])| == AlbumOffsetIn(f, t)
  {
    var parts := PartsIn(f, t);
    PrefixOffsetsIn(f, t);
    assert parts[..6][..5] == parts[..5];
    assert parts[..7][..6] == parts[..6];
    assert parts[..8][..7] == parts[..7];
    assert parts[..9][..8] == parts[..8];
  }

  /** A track document ends with the animation comment, the indicator slot and the closing tag. */
  lemma TrackEndIn(f: Frame, t: Track)
    ensures Concat(PartsIn(f, t)) ==
      Concat(PartsIn(f, t)[..10]) + f.indicatorLead + (if t.isPlaying then f.pulse else "") + f.closing
  {
    var parts := PartsIn(f, t);
    ConcatAt(parts, 11);
    assert parts[12..] == [f.closing];
    assert [f.closing][..0] == [];
    assert Concat(parts[12..]) == f.closing;
    assert parts[..11][..10] == parts[..10];
  }

  // ---------------------------------------------------------------------------
  // The badge properties, for any frame

  lemma StatusColorIn(f: Frame, t: Track, doc: string)
    requires doc == Concat(PartsIn(f, t))
    ensures StartsWith(doc, f.styleLead + Style.accentColor) <==> t.isPlaying
    ensures StartsWith(doc, f.styleLead + MutedColor) <==> !t.isPlaying
  {
    PrefixOffsetsIn(f, t);
    PieceOccurs(PartsIn(f, t), 1);
    var i := |f.styleLead| + 1;
    if t.isPlaying {
      StartsWithExcludes(doc, f.styleLead + Style.accentColor, f.styleLead + MutedColor, i);
    } else {
      StartsWithExcludes(doc, f.styleLead + MutedColor, f.styleLead + Style.accentColor, i);
    }
  }

  lemma NowPlayingLabelIn(f: Frame, t: Track, doc: string)
    requires doc == Concat(PartsIn(f, t))
    ensures OccursAt(doc, Element(StatusTag, NowPlayingLabel), StatusOffsetIn(f)) <==> t.isPlaying
  {
    StatusLabelAt(f, t);
    if !t.isPlaying {
      ElementText(StatusTag, NowPlayingLabel, 2);
      ElementText(StatusTag, RecentlyPlayedLabel, 2);
      OccursAtExcludes(doc, Element(StatusTag, RecentlyPlayedLabel), Element(StatusTag, NowPlayingLabel),
        StatusOffsetIn(f), |StatusTag| + 2);
    }
  }

  lemma RecentlyPlayedLabelIn(f: Frame, t: Track, doc: string)
    requires doc == Concat(PartsIn(f, t))
    ensures OccursAt(doc, Element(StatusTag, RecentlyPlayedLabel), StatusOffsetIn(f)) <==> !t.isPlaying
  {
    StatusLabelAt(f, t);
    if t.isPlaying {
      ElementText(StatusTag, NowPlayingLabel, 2);
      ElementText(StatusTag, RecentlyPlayedLabel, 2);
      OccursAtExcludes(doc, Element(StatusTag, NowPlayingLabel), Element(StatusTag, RecentlyPlayedLabel),
        StatusOffsetIn(f), |StatusTag| + 2);
    }
  }

  /** The status element, with the label of the playing flag, starts at `StatusOffsetIn(f)`. */
  lemma StatusLabelAt(f: Frame, t: Track)
    ensures OccursAt(Concat(PartsIn(f, t)), Element(StatusTag, StatusLabel(t.isPlaying)), StatusOffsetIn(f))
  {
    PrefixOffsetsIn(f, t);
    PieceOccurs(PartsIn(f, t), 3);
  }

  /** `j` counts from the end a place where the frame's two possible endings differ. */
  lemma PulseIn(f: Frame, t: Track, doc: string, j: nat)
    requires doc == Concat(PartsIn(f, t))
    requires 0 < j <= |f.indicatorLead + f.closing| && j <= |f.pulse + f.closing|
    requires (f.indicatorLead + f.closing)[|f.indicatorLead + f.closing| - j]
          != (f.pulse + f.closing)[|f.pulse + f.closing| - j]
    ensures EndsWith(doc, f.pulse + f.closing) <==> t.isPlaying
  {
    TrackEndIn(f, t);
    var front := Concat(PartsIn(f, t)[..10]) + f.indicatorLead;
    if t.isPlaying {
      EndsWithPair(front, f.pulse, f.closing);
    } else {
      NoPulseIn(Concat(PartsIn(f, t)[..10]), f, doc, j);
    }
  }

  /** A document ending with the animation comment right before the closing tag does not end with the dot. */
  lemma NoPulseIn(front: string, f: Frame, doc: string, j: nat)
    requires doc == front + f.indicatorLead + "" + f.closing
    requires 0 < j <= |f.indicatorLead + f.closing| && j <= |f.pulse + f.closing|
    requires (f.indicatorLead + f.closing)[|f.indicatorLead + f.closing| - j]
          != (f.pulse + f.closing)[|f.pulse + f.closing| - j]
    ensures !EndsWith(doc, f.pulse + f.closing)
  {
    assert doc == front + f.indicatorLead + f.closing;
    EndsWithPair(front, f.indicatorLead, f.closing);
    EndsWithExcludes(doc, f.indicatorLead + f.closing, f.pulse + f.closing, j);
  }

  lemma TitleIn(f: Frame, t: Track, doc: string)
    requires doc == Concat(PartsIn(f, t))
    ensures |t.name| <= TitleLimit ==>
      OccursAt(doc, Element(TitleTag, t.name), TitleOffsetIn(f, t.isPlaying))
    ensures |t.name| > TitleLimit ==>
      OccursAt(doc, Element(TitleTag, t.name[..TitleLimit] + Ellipsis), TitleOffsetIn(f, t.isPlaying))
  {
    PrefixOffsetsIn(f, t);
    PieceOccurs(PartsIn(f, t), 5);
  }

  lemma ArtistIn(f: Frame, t: Track, doc: string)
    requires doc == Concat(PartsIn(f, t))
    ensures |t.artist| <= ArtistLimit ==>
      OccursAt(doc, Element(ArtistTag, "by " + t.artist), ArtistOffsetIn(f, t))
    ensures |t.artist| > ArtistLimit ==>
      OccursAt(doc, Element(ArtistTag, "by " + t.artist[..ArtistLimit] + Ellipsis), ArtistOffsetIn(f, t))
  {
    LowerOffsetsIn(f, t);
    PieceOccurs(PartsIn(f, t), 7);
    if |t.artist| > ArtistLimit {
      assert "by " + Truncate(t.artist, ArtistLimit) == "by " + t.artist[..ArtistLimit] + Ellipsis;
    }
  }

  lemma AlbumIn(f: Frame, t: Track, doc: string)
    requires doc == Concat(PartsIn(f, t))
    ensures |t.album| <= AlbumLimit ==>
      OccursAt(doc, Element(AlbumTag, t.album), AlbumOffsetIn(f, t))
    ensures |t.album| > AlbumLimit ==>
      OccursAt(doc, Element(AlbumTag, t.album[..AlbumLimit] + Ellipsis), AlbumOffsetIn(f, t))
  {
    LowerOffsetsIn(f, t);
    PieceOccurs(PartsIn(f, t), 9);
  }

  lemma NameMarkupIn(f: Frame, t: Track, doc: string)
    requires doc == Concat(PartsIn(f, t))
    requires t.name == "<circle r=\"4\"/>"
    ensures Contains(doc, "<circle")
  {
    TitleIn(f, t, doc);
    var title := Element(TitleTag, t.name);
    assert title[|TitleTag|..|TitleTag| + 7] == "<circle";
    assert OccursAt(title, "<circle", |TitleTag|);
    OccursWithin(doc, title, TitleOffsetIn(f, t.isPlaying), "<circle", |TitleTag|);
  }

  lemma StartsWithLeadIn(f: Frame, t: Track, doc: string)
    requires doc == Concat(PartsIn(f, t))
    ensures StartsWith(doc, f.styleLead)
  {
    PrefixOffsetsIn(f, t);
    PieceOccurs(PartsIn(f, t), 0);
    assert PartsIn(f, t)[..0] == [];
  }

  // ---------------------------------------------------------------------------
  // The badge properties of the script

  /**
   * The `.status` rule is filled with the accent colour exactly when the track
   * is playing and with the muted grey exactly when it is not.
   */
  lemma StatusColorFollowsPlaying(t: Track)
    ensures StartsWith(Render(Some(t)), StyleLead + Style.accentColor) <==> t.isPlaying
    ensures StartsWith(Render(Some(t)), StyleLead + MutedColor) <==> !t.isPlaying
  {
    StatusColorIn(ScriptFrame, t, Render(Some(t)));
  }

  /** At the status element's offset the document reads "🎵 Now Playing" exactly when the track is playing. */
  lemma NowPlayingLabelIffPlaying(t: Track)
    ensures OccursAt(Render(Some(t)), Element(StatusTag, NowPlayingLabel), StatusOffsetIn(ScriptFrame)) <==> t.isPlaying
  {
    NowPlayingLabelIn(ScriptFrame, t, Render(Some(t)));
  }

  /** At the same offset it reads "🎵 Recently Played" exactly when the track is not playing. */
  lemma RecentlyPlayedLabelIffPaused(t: Track)
    ensures OccursAt(Render(Some(t)), Element(StatusTag, RecentlyPlayedLabel), StatusOffsetIn(ScriptFrame)) <==> !t.isPlaying
  {
    RecentlyPlayedLabelIn(ScriptFrame, t, Render(Some(t)));
  }

  /** Counted from the end: the "-" of the comment's "-->" against the "e" of "</circle>". */
  const TailProbe: nat := |Closing| + |Break| + 2

  lemma TailsDiffer()
    ensures 0 < TailProbe <= |IndicatorLead + Closing| && TailProbe <= |Pulse + Closing|
    ensures (IndicatorLead + Closing)[|IndicatorLead + Closing| - TailProbe]
         != (Pulse + Closing)[|Pulse + Closing| - TailProbe]
  {
    assert (IndicatorLead + Closing)[|IndicatorLead + Closing| - TailProbe] == '-';
    assert (Pulse + Closing)[|Pulse + Closing| - TailProbe] == 'e';
  }

  /** The document ends with the pulsing dot, right before the closing tag, exactly when the track is playing. */
  lemma PulseIffPlaying(t: Track)
    ensures EndsWith(Render(Some(t)), Pulse + Closing) <==> t.isPlaying
  {
    TailsDiffer();
    PulseIn(ScriptFrame, t, Render(Some(t)), TailProbe);
  }

  /**
   * The title element holds the track name as is when it has at most 25
   * characters, and otherwise its first 25 characters followed by "...".
   */
  lemma TitleShowsName(t: Track)
    ensures |t.name| <= TitleLimit ==> OccursAt(Render(Some(t)), Element(TitleTag, t.name), TitleOffsetIn(ScriptFrame, t.isPlaying))
    ensures |t.name| > TitleLimit ==>
      OccursAt(Render(Some(t)), Element(TitleTag, t.name[..TitleLimit] + Ellipsis), TitleOffsetIn(ScriptFrame, t.isPlaying))
  {
    TitleIn(ScriptFrame, t, Render(Some(t)));
  }

  /**
   * The artist element, right after the title line, holds "by " and the
   * artist name as is when it has at most 25 characters, and otherwise its
   * first 25 characters followed by "...".
   */
  lemma ArtistLine(t: Track)
    ensures |t.artist| <= ArtistLimit ==>
      OccursAt(Render(Some(t)), Element(ArtistTag, "by " + t.artist), ArtistOffsetIn(ScriptFrame, t))
    ensures |t.artist| > ArtistLimit ==>
      OccursAt(Render(Some(t)), Element(ArtistTag, "by " + t.artist[..ArtistLimit] + Ellipsis), ArtistOffsetIn(ScriptFrame, t))
  {
    ArtistIn(ScriptFrame, t, Render(Some(t)));
  }

  /**
   * The album element, right after the artist line, holds the album name as
   * is when it has at most 30 characters, and otherwise its first 30
   * characters followed by "...".
   */
  lemma AlbumLine(t: Track)
    ensures |t.album| <= AlbumLimit ==>
      OccursAt(Render(Some(t)), Element(AlbumTag, t.album), AlbumOffsetIn(ScriptFrame, t))
    ensures |t.album| > AlbumLimit ==>
      OccursAt(Render(Some(t)), Element(AlbumTag, t.album[..AlbumLimit] + Ellipsis), AlbumOffsetIn(ScriptFrame, t))
  {
    AlbumIn(ScriptFrame, t, Render(Some(t)));
  }

  /** Neither the cover image URL nor the track link has any effect on the badge. */
  lemma CoverAndLinkUnused(t: Track, image: Option<string>, url: string)
    ensures Render(Some(t.(image := image, url := url))) == Render(Some(t))
  {
  }

  /**
   * Without a track the badge is the fixed placeholder: it says "Not playing
   * anything", has no style sheet (so no status line), and does not end with
   * the pulsing dot.
   */
  lemma PlaceholderBadge()
    ensures Render(None) == Placeholder
    ensures Contains(Placeholder, NotPlayingText)
    ensures !StartsWith(Placeholder, StyleLead)
    ensures !EndsWith(Placeholder, Pulse + Closing)
  {
    ContainsMiddle(PlaceholderLead, NotPlayingText, PlaceholderTail);
    PlaceholderOpening();
    PlaceholderEnding();
  }

  /** The placeholder is indented further than a track document: they differ at index 5. */
  lemma PlaceholderOpening()
    ensures !StartsWith(Placeholder, StyleLead)
  {
    assert Placeholder[5] == ' ' && StyleLead[5] == '<';
  }

  /** The placeholder ends in four spaces, a track document in two. */
  lemma PlaceholderEnding()
    ensures !EndsWith(Placeholder, Pulse + Closing)
  {
    assert Placeholder[|Placeholder| - 3] == ' ';
    assert (Pulse + Closing)[|Pulse + Closing| - 3] == '\n';
  }

  /** The placeholder differs from the document of every track. */
  lemma PlaceholderIsNoTrackBadge(t: Track)
    ensures Render(None) != Render(Some(t))
  {
    PlaceholderOpening();
    StartsWithLeadIn(ScriptFrame, t, Render(Some(t)));
  }

  /**
   * Track text is interpolated without escaping: a track that is not playing
   * but whose name is a circle element puts "<circle" into the document,
   * although the document does not end with the pulsing dot.
   */
  lemma NameMarkupIsNotEscaped(t: Track)
    requires !t.isPlaying && t.name == "<circle r=\"4\"/>"
    ensures Contains(Render(Some(t)), "<circle")
    ensures !EndsWith(Render(Some(t)), Pulse + Closing)
  {
    NameMarkupIn(ScriptFrame, t, Render(Some(t)));
    PulseIffPlaying(t);
  }

  /**
   * A playing track "Song A" by "Artist B": accent-coloured "Now Playing",
   * title and artist lines verbatim, and the pulsing dot.
   */
  lemma PlayingTrackExample(t: Track)
    requires t.name == "Song A" && t.artist == "Artist B" && t.isPlaying
    ensures StartsWith(Render(Some(t)), StyleLead + Style.accentColor)
    ensures OccursAt(Render(Some(t)), Element(StatusTag, NowPlayingLabel), StatusOffsetIn(ScriptFrame))
    ensures OccursAt(Render(Some(t)), Element(TitleTag, "Song A"), TitleOffsetIn(ScriptFrame, true))
    ensures OccursAt(Render(Some(t)), Element(ArtistTag, "by Artist B"), ArtistOffsetIn(ScriptFrame, t))
    ensures EndsWith(Render(Some(t)), Pulse + Closing)
  {
    assert |t.name| <= TitleLimit && |t.artist| <= ArtistLimit;
    assert "by " + t.artist == "by Artist B";
    StatusColorFollowsPlaying(t);
    NowPlayingLabelIffPlaying(t);
    TitleShowsName(t);
    ArtistLine(t);
    PulseIffPlaying(t);
  }
}
