/**
 * `generateEmailHtml` of the exporter: the content record rendered as one HTML email
 * document. The document is the template literal of the source cut at its
 * interpolations: fixed markup alternating with the values computed from the record.
 * `sanitizeHtml` (a DOMPurify call) and JavaScript's number-to-text conversion of the
 * opacity are parameters, since their behaviour lies outside the source.
 */
module EmailExport {
  import opened Wrappers
  import opened Text
  import opened Escape
  import opened Content

  // ---------------------------------------------------------------------------
  // Fixed markup. Exact character for character: the line break before the doctype,
  // the doctype and head up to the title, the ` - ` between name and edition, the end
  // of the title, `</html>` and the indentation after it; so are the quick-link row,
  // the image tag, the image wrappers and the background row defined further down.
  // Every other piece is a skeleton that keeps the elements, attributes other than
  // `style`, comments and visible text, but not the inline CSS or indentation. The
  // renderer takes the fixed text as a `Markup` value, so that what is proved of it
  // holds whatever that text is; `Template` is the source's.

  const Doctype := "<!DOCTYPE html>"
  const HeadRest := "\n<html>\n<head>\n  <meta charset=\"UTF-8\" />\n  <title>"
  const TitleSep := " - "
  const TitleClose := "</title>"
  const BodyOpen := "\n</head>\n<body>\n<table role=\"presentation\" cellpadding=\"0\" cellspacing=\"0\" border=\"0\" width=\"100%\">\n<tr>\n<td align=\"center\">\n<table role=\"presentation\" cellpadding=\"0\" cellspacing=\"0\" border=\"0\" width=\"100%\">\n"
  const HeaderOpen := "\n<tr>\n<td>\n<!-- Header -->\n<table role=\"presentation\" width=\"100%\">\n<tr>\n<td>\n<table role=\"presentation\" width=\"100%\">\n<tr>\n<td>\n<img src=\""
  const LogoClose := "\" alt=\"Port City BPO\" />\n</td>\n<td>\n<div>"
  const NameClose := "</div>\n<div>"
  const IssueTitleClose := "</div>\n<div>Edition: "
  const LeadershipOpen := "</div>\n</td>\n</tr>\n</table>\n</td>\n</tr>\n</table>\n\n<table role=\"presentation\" width=\"100%\">\n<tr>\n<td>\n<!-- Leadership -->\n<table role=\"presentation\" width=\"100%\">\n<tr>\n<td>\n<table role=\"presentation\" width=\"100%\">\n<tr>\n<td>\n<div>Message from Leadership</div>\n<div>"
  const LeadershipTitleClose := "</div>\n<div>\n"
  const LeadershipBodyClose := "\n</div>\n<div>\nWarm regards,<br/>\nGary Seaton<br/>\nCEO, Port City BPO (Pvt) Ltd.\n</div>\n</td>\n"
  const AnnouncementsOpen := "\n</tr>\n</table>\n</td>\n</tr>\n</table>\n\n<!-- Announcements + Compliance -->\n<table role=\"presentation\" width=\"100%\" cellpadding=\"0\" cellspacing=\"0\">\n<tr>\n<td width=\"50%\">\n<table role=\"presentation\" width=\"100%\">\n<tr>\n<td>\n<div>Important Announcements</div>\n<div>\n"
  const ComplianceOpen := "\n</div>\n</td>\n</tr>\n</table>\n</td>\n<td width=\"50%\">\n<table role=\"presentation\" width=\"100%\">\n<tr>\n<td>\n<div>Compliance Reminders</div>\n<div>\n"
  const ComplianceBodyClose := "\n</div>\n"
  const SafetyOpen := "\n</td>\n</tr>\n</table>\n</td>\n</tr>\n</table>\n\n<!-- Safety -->\n<table role=\"presentation\" width=\"100%\">\n<tr>\n<td>\n<div>Safety Reminders · Storms &amp; Floods</div>\n<div>\n"
  const SpecialOpen := "\n</div>\n</td>\n</tr>\n</table>\n\n<!-- Special Message -->\n<table role=\"presentation\" width=\"100%\">\n<tr>\n<td>\n<div>Special Message · Xmas Season</div>\n<div>\n"
  const CsrOpen := "\n</div>\n</td>\n</tr>\n</table>\n\n<!-- CSR -->\n<table role=\"presentation\" width=\"100%\">\n<tr>\n<td>\n<div>Our CSR Activities</div>\n<table role=\"presentation\" width=\"100%\">\n<tr>\n<td>\n<div>\n"
  const ImageCellOpen := "\n</div>\n</td>\n<td>\n"
  const ImageGap := "\n"
  const EventsOpen := "\n</td>\n</tr>\n</table>\n</td>\n</tr>\n</table>\n\n<!-- Employee Events -->\n<table role=\"presentation\" width=\"100%\">\n<tr>\n<td>\n<div>Employee Events</div>\n<table role=\"presentation\" width=\"100%\">\n<tr>\n<td>\n<div>\n"
  const WinsOpen := "\n</td>\n</tr>\n</table>\n</td>\n</tr>\n</table>\n\n<!-- Wins + Useful -->\n<table role=\"presentation\" width=\"100%\" cellpadding=\"0\" cellspacing=\"0\">\n<tr>\n<td width=\"50%\">\n<table role=\"presentation\" width=\"100%\">\n<tr>\n<td>\n<div>Wins &amp; Shout-outs</div>\n<div>\n"
  const UsefulOpen := "\n</div>\n</td>\n</tr>\n</table>\n</td>\n<td width=\"50%\">\n<table role=\"presentation\" width=\"100%\">\n<tr>\n<td>\n<div>Useful Information</div>\n<div>\n"
  const QuickLinksOpen := "\n</div>\n</td>\n</tr>\n</table>\n</td>\n</tr>\n</table>\n\n<!-- Quick Links -->\n<table role=\"presentation\" width=\"100%\">\n<tr>\n<td>\n<div>Quick Links</div>\n<table role=\"presentation\" width=\"100%\">\n"
  const FootBody := "\n</table>\n</td>\n</tr>\n</table>\n\n<!-- Footer -->\n<table role=\"presentation\" width=\"100%\">\n<tr>\n<td>\nYou&apos;re receiving Port Pulse as a member of Port City BPO.<br/>\nPlease keep this information internal and confidential.\n</td>\n</tr>\n</table>\n\n</td>\n</tr>\n</table>\n\n</td>\n</tr>\n</table>\n</td>\n</tr>\n</table>\n</body>\n"
  const HtmlClose := "</html>"
  /** The template literal opens with a line break before the doctype, and closes with a
      line break and the indentation of the `.trim()` call. */
  const LeadingBreak := "\n"
  const TrailingIndent := "\n  "


  /** The fixed text of the template between its interpolations, in document order. */
  datatype Markup = Markup(
    leadingBreak: string,
    doctype: string,
    headRest: string,
    titleSep: string,
    titleClose: string,
    bodyOpen: string,
    headerOpen: string,
    logoClose: string,
    nameClose: string,
    issueTitleClose: string,
    leadershipOpen: string,
    leadershipTitleClose: string,
    leadershipBodyClose: string,
    announcementsOpen: string,
    complianceOpen: string,
    complianceBodyClose: string,
    safetyOpen: string,
    specialOpen: string,
    csrOpen: string,
    imageCellOpen: string,
    imageGap: string,
    eventsOpen: string,
    winsOpen: string,
    usefulOpen: string,
    quickLinksOpen: string,
    footBody: string,
    htmlClose: string,
    trailingIndent: string)
  {
    /** The template opens and closes with white space around a visible document. */
    predicate Framed() {
      && AllWhitespace(leadingBreak) && AllWhitespace(trailingIndent)
      && doctype != [] && !IsWhitespace(doctype[0])
      && htmlClose != [] && !IsWhitespace(htmlClose[|htmlClose| - 1])
    }
  }

  /** The markup of the source's template. */
  const Template := Markup(
    LeadingBreak,
    Doctype,
    HeadRest,
    TitleSep,
    TitleClose,
    BodyOpen,
    HeaderOpen,
    LogoClose,
    NameClose,
    IssueTitleClose,
    LeadershipOpen,
    LeadershipTitleClose,
    LeadershipBodyClose,
    AnnouncementsOpen,
    ComplianceOpen,
    ComplianceBodyClose,
    SafetyOpen,
    SpecialOpen,
    CsrOpen,
    ImageCellOpen,
    ImageGap,
    EventsOpen,
    WinsOpen,
    UsefulOpen,
    QuickLinksOpen,
    FootBody,
    HtmlClose,
    TrailingIndent)

  const PlaceholderLogo := "https://via.placeholder.com/180x60?text=Port+City+BPO+Logo"

  // ---------------------------------------------------------------------------
  // Interpolated values

  /** `logoSrc`: the logo URL itself, unescaped, when it has a character that trimming
      keeps; otherwise the placeholder image. */
  function LogoSrc(logoUrl: string): (r: string)
    ensures HasVisible(logoUrl) ==> r == logoUrl
    ensures !HasVisible(logoUrl) ==> r == PlaceholderLogo
  {
    TrimNonEmptyIff(logoUrl);
    if logoUrl != "" && |Trim(logoUrl)| > 0 then logoUrl else PlaceholderLogo
  }

  /** `background-repeat`: tiled in `'repeat'` mode only. */
  function BackgroundRepeat(mode: string): (r: string)
    ensures r == "repeat" <==> mode == "repeat"
    ensures r != "repeat" ==> r == "no-repeat"
  {
    if mode == "repeat" then "repeat" else "no-repeat"
  }

  /** `background-size`: `'cover'` and `'contain'` are passed on, any other mode is `auto`. */
  function BackgroundSize(mode: string): (r: string)
    ensures r == "cover" <==> mode == "cover"
    ensures r == "contain" <==> mode == "contain"
    ensures r == "auto" <==> mode != "cover" && mode != "contain"
  {
    if mode == "cover" then "cover" else if mode == "contain" then "contain" else "auto"
  }

  const BgImageDecl := "\n      background-image: url('"
  const RepeatDecl := "');\n      background-repeat: "
  const SizeDecl := ";\n      background-size: "
  const PositionDecl := ";\n      background-position: center;\n    "

  /** `bgStyle`: the background layer's CSS, with the image URL embedded as given and the
      repeat and size values chosen by the mode. */
  function BackgroundStyle(image: string, mode: string): (r: string)
    ensures r == "" <==> image == ""
    ensures image != "" ==> (r == BgImageDecl + image + RepeatDecl + BackgroundRepeat(mode)
                                  + SizeDecl + BackgroundSize(mode) + PositionDecl)
    ensures image != "" ==> StartsWith(r, BgImageDecl + image)
  {
    if image != "" then
      var rest := RepeatDecl + BackgroundRepeat(mode) + SizeDecl + BackgroundSize(mode) + PositionDecl;
      AppendStartsWith(BgImageDecl + image, rest);
      BgImageDecl + image + rest
    else ""
  }

  /** `bgOverlayOpacity`: `backgroundOpacity ?? 0.15`, so only an absent value is replaced
      and an opacity of 0 is kept. */
  function OverlayOpacity(opacity: Option<real>): (r: real)
    ensures opacity.Some? ==> r == opacity.value
    ensures opacity.None? ==> r == 0.15
  {
    opacity.GetOr(0.15)
  }

  const BgRowOpen := "\n          <tr>\n            <td style=\""
  const OpacityDecl := "position:absolute;inset:0;opacity:"
  const BgRowClose := ";filter:brightness(1);\"></td>\n          </tr>"

  /** The background row of the outer table: emitted only with a background image, and
      then carrying `bgStyle` and the overlay opacity as text. */
  function BackgroundRow(image: string, mode: string, opacity: Option<real>, numberText: real -> string): (r: string)
    ensures r == "" <==> image == ""
    ensures image != "" ==>
      r == BgRowOpen + BackgroundStyle(image, mode) + OpacityDecl + numberText(OverlayOpacity(opacity)) + BgRowClose
  {
    if image != "" then
      BgRowOpen + BackgroundStyle(image, mode) + OpacityDecl + numberText(OverlayOpacity(opacity)) + BgRowClose
    else ""
  }

  /** With a background image, the row names the image as given, the repeat and size the
      mode selects, and the stored opacity or 0.15 when none is stored. */
  lemma BackgroundRowSettings(image: string, mode: string, opacity: Option<real>, numberText: real -> string)
    requires image != ""
    ensures BackgroundRow(image, mode, opacity, numberText) ==
      BgRowOpen + BgImageDecl + image + RepeatDecl + BackgroundRepeat(mode) + SizeDecl
      + BackgroundSize(mode) + PositionDecl + OpacityDecl + numberText(opacity.GetOr(0.15)) + BgRowClose
    ensures mode == "repeat" ==> BackgroundRepeat(mode) == "repeat" && BackgroundSize(mode) == "auto"
    ensures mode == "cover" ==> BackgroundRepeat(mode) == "no-repeat" && BackgroundSize(mode) == "cover"
  {
    var repeat, size, alpha := BackgroundRepeat(mode), BackgroundSize(mode), numberText(OverlayOpacity(opacity));
    assert BackgroundStyle(image, mode) == BgImageDecl + image + RepeatDecl + repeat + SizeDecl + size + PositionDecl;
    FlattenRow(BgRowOpen, BgImageDecl, image, RepeatDecl, repeat, SizeDecl, size, PositionDecl,
      OpacityDecl, alpha, BgRowClose);
  }

  lemma FlattenRow(a: string, b: string, c: string, d: string, e: string, f: string,
                   g: string, h: string, i: string, j: string, k: string)
    ensures a + (b + c + d + e + f + g + h) + i + j + k == a + b + c + d + e + f + g + h + i + j + k
  {
  }

  // ---------------------------------------------------------------------------
  // Quick links

  /** The link target `escapeAttr(q.url || '#')`: `#` for a slot without URL, and
      never a character that could close the attribute. */
  function LinkHref(q: QuickLink): (r: string)
    ensures q.url == "" ==> r == "#"
    ensures q.url != "" ==> r == EscapeAttr(q.url)
    ensures NoSpecial(r) && (NoSpecial(q.url) && q.url != "" ==> r == q.url)
  {
    var u := if q.url != "" then q.url else "#";
    EscapeAttrNoSpecial(u);
    EscapeAttrFixedIff(u);
    EscapeAttr(u)
  }

  /** The link text `escapeAttr(q.label || 'Link')`: `Link` for a slot without label. */
  function LinkText(q: QuickLink): (r: string)
    ensures q.text == "" ==> r == "Link"
    ensures q.text != "" ==> r == EscapeAttr(q.text)
    ensures NoSpecial(r) && (NoSpecial(q.text) && q.text != "" ==> r == q.text)
  {
    var t := if q.text != "" then q.text else "Link";
    EscapeAttrNoSpecial(t);
    EscapeAttrFixedIff(t);
    EscapeAttr(t)
  }

  const RowHead := "\n          <tr>\n            <td style=\"padding:4px 0;\">\n              <a href=\""
  const RowMid := "\"" + LinkStyleAttr
  const LinkStyleAttr := " style=\"color:#2563eb;text-decoration:none;\">"
  const RowTail := "</a>\n            </td>\n          </tr>"

  /** One table row holding one link: its target and its text, both escaped. */
  function QuickLinkRow(q: QuickLink): (r: string)
    ensures r == RowHead + LinkHref(q) + RowMid + LinkText(q) + RowTail
  {
    RowHead + LinkHref(q) + RowMid + LinkText(q) + RowTail
  }

  /** A row can be read back: since neither escaped text holds a `"` or a `<`, the
      quote closing the href and the tag after the link text are where the row splits,
      so equal rows carry equal targets and equal texts. */
  lemma QuickLinkRowReadBack(q1: QuickLink, q2: QuickLink)
    requires QuickLinkRow(q1) == QuickLinkRow(q2)
    ensures LinkHref(q1) == LinkHref(q2) && LinkText(q1) == LinkText(q2)
  {
    var h1, h2, t1, t2 := LinkHref(q1), LinkHref(q2), LinkText(q1), LinkText(q2);
    Regroup(RowHead, h1, RowMid, t1, RowTail);
    Regroup(RowHead, h2, RowMid, t2, RowTail);
    assert RowMid[0] == '"';
    assert (RowMid + t1 + RowTail)[0] == RowMid[0];
    assert (RowMid + t2 + RowTail)[0] == RowMid[0];
    SplitAtSpecial(RowHead, h1, RowMid + t1 + RowTail, h2, RowMid + t2 + RowTail);
    assert RowMid + t1 + RowTail == RowMid + (t1 + RowTail) == RowMid + t2 + RowTail;
    assert RowTail[0] == '<';
    SplitAtSpecial(RowMid, t1, RowTail, t2, RowTail);
  }

  lemma Regroup(a: string, b: string, c: string, d: string, e: string)
    ensures a + b + c + d + e == a + b + (c + d + e)
  {
  }

  /** The index of the first `"`, `<` or `>` in a text, or its length when it has none. */
  function FirstSpecial(s: string): (k: nat)
    ensures k <= |s|
    ensures k < |s| ==> IsSpecial(s[k])
    ensures forall i | 0 <= i < k :: !IsSpecial(s[i])
  {
    if s == [] then 0
    else if IsSpecial(s[0]) then 0
    else 1 + FirstSpecial(s[1..])
  }

  /** Text free of `"`, `<` and `>` followed by one of them ends at the first of them. */
  lemma {:induction false} SpecialAfter(a: string, x: string)
    requires NoSpecial(a)
    requires x != [] && IsSpecial(x[0])
    ensures FirstSpecial(a + x) == |a|
    decreases |a|
  {
    if a == [] {
      assert a + x == x;
    } else {
      assert (a + x)[0] == a[0];
      assert (a + x)[1..] == a[1..] + x;
      SpecialAfter(a[1..], x);
    }
  }

  /** Two texts free of `"`, `<` and `>` that follow the same prefix and are each followed
      by one of those characters are equal, and so are the remainders. */
  lemma SplitAtSpecial(p: string, a: string, x: string, b: string, y: string)
    requires p + a + x == p + b + y
    requires NoSpecial(a) && NoSpecial(b)
    requires x != [] && IsSpecial(x[0]) && y != [] && IsSpecial(y[0])
    ensures a == b && x == y
  {
    var s := p + a + x;
    assert a + x == s[|p|..] == b + y;
    SpecialAfter(a, x);
    SpecialAfter(b, y);
    assert a == (a + x)[..|a|] == (b + y)[..|b|] == b;
    assert x == (a + x)[|a|..] == (b + y)[|b|..] == y;
  }

  /** `quickLinks.filter(q => q.label || q.url)`. */
  function ShownLinks(links: seq<QuickLink>): (r: seq<QuickLink>)
    ensures |r| <= |links|
    ensures forall q | q in r :: q in links && q.IsShown()
    ensures forall q | q in links && q.IsShown() :: q in r
  {
    if links == [] then [] else (if links[0].IsShown() then [links[0]] else []) + ShownLinks(links[1..])
  }

  /** `.map(q => row(q))`: one row per link, in order. */
  function RowList(links: seq<QuickLink>): (rows: seq<string>)
    ensures |rows| == |links|
    ensures forall i | 0 <= i < |links| :: rows[i] == QuickLinkRow(links[i])
  {
    seq(|links|, i requires 0 <= i < |links| => QuickLinkRow(links[i]))
  }

  /** `quickLinksHtml`: a missing or empty list gives "", any other list one row per slot
      that has a label or a URL, joined. */
  function QuickLinksHtml(quickLinks: Option<seq<QuickLink>>): (r: string)
    ensures quickLinks.None? || quickLinks.value == [] ==> r == ""
    ensures quickLinks.Some? ==> r == Concat(RowList(ShownLinks(quickLinks.value)))
  {
    if quickLinks.Some? && |quickLinks.value| > 0 then Concat(RowList(ShownLinks(quickLinks.value))) else ""
  }

  /** The filter keeps the order of the list: filtering two lists one after the other is
      filtering their concatenation. */
  lemma {:induction false} ShownLinksAppend(a: seq<QuickLink>, b: seq<QuickLink>)
    ensures ShownLinks(a + b) == ShownLinks(a) + ShownLinks(b)
    decreases |a|
  {
    if a == [] {
      assert a + b == b;
    } else {
      assert (a + b)[1..] == a[1..] + b;
      ShownLinksAppend(a[1..], b);
    }
  }

  /** A one-slot list keeps its slot exactly when the slot has a label or a URL. */
  lemma ShownLinksSingle(q: QuickLink)
    ensures ShownLinks([q]) == if q.IsShown() then [q] else []
  {
    assert [q][1..] == [];
  }

  /** A list all of whose slots are blank renders no row. */
  lemma {:induction false} BlankLinksNoRows(links: seq<QuickLink>)
    requires forall i | 0 <= i < |links| :: !links[i].IsShown()
    ensures ShownLinks(links) == [] && QuickLinksHtml(Some(links)) == ""
    decreases |links|
  {
    if links != [] {
      BlankLinksNoRows(links[1..]);
    }
  }

  /** The filter drops the blank slots around a filled one. */
  lemma ShownLinksSkipBlank(q: QuickLink)
    requires q.IsShown()
    ensures ShownLinks([BlankLink, q, BlankLink]) == [q]
  {
    assert [BlankLink, q, BlankLink] == [BlankLink] + [q] + [BlankLink];
    ShownLinksAppend([BlankLink] + [q], [BlankLink]);
    ShownLinksAppend([BlankLink], [q]);
    ShownLinksSingle(BlankLink);
    ShownLinksSingle(q);
  }

  /** A list whose only filled slot sits between blank ones renders that slot alone. */
  lemma QuickLinksSkipBlank(q: QuickLink)
    requires q.IsShown()
    ensures QuickLinksHtml(Some([BlankLink, q, BlankLink])) == QuickLinkRow(q)
  {
    ShownLinksSkipBlank(q);
    assert RowList([q]) == [QuickLinkRow(q)];
    ConcatSingle(QuickLinkRow(q));
  }

  // ---------------------------------------------------------------------------
  // Images

  const ImgOpen := "<img src=\""
  const ImgAlt := "\" alt=\""
  const ImgStyle := "\" style=\"display:block;border-radius:12px;border:1px solid #e5e7eb;"
  const ImgClose := "\" />"

  /** `img(src, alt, extraStyles)`: nothing for an empty source; otherwise a tag whose `src`
      is the source as given and whose `alt` is escaped. */
  function Img(src: string, alt: string, extra: string): (r: string)
    ensures r == "" <==> src == ""
    ensures src != "" ==> StartsWith(r, ImgOpen + src + ImgAlt + EscapeAttr(alt) + ImgStyle)
  {
    if src != "" then ImgOpen + src + ImgAlt + EscapeAttr(alt) + ImgStyle + extra + ImgClose else ""
  }

  /** `src ? open + img(src, alt, extra) + close : ''`. */
  function OptionalImage(src: string, alt: string, extra: string, open: string, close: string): (r: string)
    ensures r == "" <==> src == ""
    ensures src != "" ==> r == open + Img(src, alt, extra) + close
  {
    if src != "" then open + Img(src, alt, extra) + close else ""
  }

  /** The fixed arguments of each inline image: alt text, extra styles and the markup
      around it. */
  datatype ImageLayout = ImageLayout(alt: string, extra: string, open: string, close: string)

  const PortraitStyle := "width:140px;height:140px;object-fit:cover;"
  const FirstThumbStyle := "width:100%;height:80px;object-fit:cover;margin-bottom:8px;"
  const SecondThumbStyle := "width:100%;height:80px;object-fit:cover;"

  /** The leadership portrait sits in its own cell, the compliance picture in a block,
      the CSR and event pictures bare in their column. */
  function Layout(f: Field): (l: ImageLayout)
    requires f.IsImage() && !f.BackgroundImage?
    ensures NoSpecial(l.alt) && l.alt != ""
    ensures l.open == "" <==> l.close == ""
    ensures l.open != "" <==> f.LeadershipImage? || f.ComplianceImage?
    ensures f.CsrImage1? || f.EventsImage1? ==> l.extra == FirstThumbStyle
    ensures f.CsrImage2? || f.EventsImage2? ==> l.extra == SecondThumbStyle
  {
    match f
    case LeadershipImage =>
      ImageLayout("CEO", PortraitStyle, "<td style=\"width:140px;padding-left:12px;vertical-align:top;\">", "</td>")
    case ComplianceImage =>
      ImageLayout("Compliance", "width:100%;height:90px;object-fit:cover;", "<div style=\"margin-top:8px;\">", "</div>")
    case CsrImage1 => ImageLayout("CSR 1", FirstThumbStyle, "", "")
    case CsrImage2 => ImageLayout("CSR 2", SecondThumbStyle, "", "")
    case EventsImage1 => ImageLayout("Event 1", FirstThumbStyle, "", "")
    case EventsImage2 => ImageLayout("Event 2", SecondThumbStyle, "", "")
  }

  /** The markup of one inline image field: nothing when the field is empty. */
  function ImageMarkup(f: Field, src: string): (r: string)
    requires f.IsImage() && !f.BackgroundImage?
    ensures r == "" <==> src == ""
    ensures src != "" ==> r == Layout(f).open + Img(src, Layout(f).alt, Layout(f).extra) + Layout(f).close
  {
    var l := Layout(f);
    var r := OptionalImage(src, l.alt, l.extra, l.open, l.close);
    r
  }

  // ---------------------------------------------------------------------------
  // The document

  /** The values the template interpolates, computed from the record in one place. */
  datatype Values = Values(
    name: string,
    edition: string,
    backgroundRow: string,
    logo: string,
    issueTitle: string,
    leadershipTitle: string,
    leadershipBody: string,
    leadershipImage: string,
    announcements: string,
    compliance: string,
    complianceImage: string,
    safety: string,
    special: string,
    csr: string,
    csrImage1: string,
    csrImage2: string,
    events: string,
    eventsImage1: string,
    eventsImage2: string,
    wins: string,
    useful: string,
    quickLinks: string)
  {
    /** The value standing for a rich-text or image field. */
    function Of(f: Field): string
      requires f.IsRichText() || f.IsImage()
    {
      match f
      case LeadershipBodyHtml => leadershipBody
      case ImportantAnnouncementsHtml => announcements
      case ComplianceRemindersHtml => compliance
      case SafetyRemindersHtml => safety
      case SpecialMessageHtml => special
      case CsrHtml => csr
      case EmployeeEventsHtml => events
      case WinsAndShoutoutsHtml => wins
      case UsefulInfoHtml => useful
      case BackgroundImage => backgroundRow
      case LeadershipImage => leadershipImage
      case ComplianceImage => complianceImage
      case CsrImage1 => csrImage1
      case CsrImage2 => csrImage2
      case EventsImage1 => eventsImage1
      case EventsImage2 => eventsImage2
    }
  }

  /** The interpolations of the template: plain-text fields escaped, rich text passed
      through the sanitizer, images and links as their own markup. No escaped text holds
      a character that could end an attribute or open a tag. */
  function Interpolate(d: Content, sanitize: string -> string, numberText: real -> string): (v: Values)
    ensures v.name == EscapeAttr(d.newsletterName) && v.edition == EscapeAttr(d.edition)
    ensures v.issueTitle == EscapeAttr(d.issueTitle) && v.leadershipTitle == EscapeAttr(d.leadershipTitle)
    ensures NoSpecial(v.name) && NoSpecial(v.edition) && NoSpecial(v.issueTitle)
    ensures NoSpecial(v.leadershipTitle)
    ensures d.issueTitle == "" ==> v.issueTitle == ""
    ensures HasVisible(d.logoUrl) ==> v.logo == d.logoUrl
    ensures !HasVisible(d.logoUrl) ==> v.logo == PlaceholderLogo
    ensures v.backgroundRow ==
      BackgroundRow(d.backgroundImage, d.backgroundMode, d.backgroundOpacity, numberText)
    ensures v.quickLinks == QuickLinksHtml(d.quickLinks)
  {
    EscapeAttrNoSpecial(d.newsletterName);
    EscapeAttrNoSpecial(d.edition);
    EscapeAttrNoSpecial(d.issueTitle);
    EscapeAttrNoSpecial(d.leadershipTitle);
    Values(
      EscapeAttr(d.newsletterName),
      EscapeAttr(d.edition),
      BackgroundRow(d.backgroundImage, d.backgroundMode, d.backgroundOpacity, numberText),
      LogoSrc(d.logoUrl),
      EscapeAttr(d.issueTitle),
      EscapeAttr(d.leadershipTitle),
      sanitize(d.leadershipBodyHtml),
      ImageMarkup(LeadershipImage, d.leadershipImage),
      sanitize(d.importantAnnouncementsHtml),
      sanitize(d.complianceRemindersHtml),
      ImageMarkup(ComplianceImage, d.complianceImage),
      sanitize(d.safetyRemindersHtml),
      sanitize(d.specialMessageHtml),
      sanitize(d.csrHtml),
      ImageMarkup(CsrImage1, d.csrImage1),
      ImageMarkup(CsrImage2, d.csrImage2),
      sanitize(d.employeeEventsHtml),
      ImageMarkup(EventsImage1, d.eventsImage1),
      ImageMarkup(EventsImage2, d.eventsImage2),
      sanitize(d.winsAndShoutoutsHtml),
      sanitize(d.usefulInfoHtml),
      QuickLinksHtml(d.quickLinks))
  }

  /** The template literal cut at its interpolations, in order: the head (0-8), the
      masthead (9-16), the leadership message (17-22), the notices (23-32), the CSR
      (33-38) and events (39-44) galleries, and the closing (45-53). */
  function Pieces(m: Markup, v: Values): (ps: seq<string>)
    ensures |ps| == 54
  {
    HeadPieces(m, v) + MastheadPieces(m, v) + LeadershipPieces(m, v) + NoticePieces(m, v)
    + CsrPieces(m, v) + EventsPieces(m, v) + ClosingPieces(m, v)
  }

  function HeadPieces(m: Markup, v: Values): seq<string> {
    [ m.leadingBreak, m.doctype, m.headRest, v.name, m.titleSep, v.edition, m.titleClose,
      m.bodyOpen, v.backgroundRow ]
  }

  function MastheadPieces(m: Markup, v: Values): seq<string> {
    [ m.headerOpen, v.logo, m.logoClose, v.name, m.nameClose, v.issueTitle,
      m.issueTitleClose, v.edition ]
  }

  function LeadershipPieces(m: Markup, v: Values): seq<string> {
    [ m.leadershipOpen, v.leadershipTitle, m.leadershipTitleClose, v.leadershipBody,
      m.leadershipBodyClose, v.leadershipImage ]
  }

  function NoticePieces(m: Markup, v: Values): seq<string> {
    [ m.announcementsOpen, v.announcements, m.complianceOpen, v.compliance,
      m.complianceBodyClose, v.complianceImage, m.safetyOpen, v.safety,
      m.specialOpen, v.special ]
  }

  function CsrPieces(m: Markup, v: Values): seq<string> {
    [ m.csrOpen, v.csr, m.imageCellOpen, v.csrImage1, m.imageGap, v.csrImage2 ]
  }

  function EventsPieces(m: Markup, v: Values): seq<string> {
    [ m.eventsOpen, v.events, m.imageCellOpen, v.eventsImage1, m.imageGap, v.eventsImage2 ]
  }

  function ClosingPieces(m: Markup, v: Values): seq<string> {
    [ m.winsOpen, v.wins, m.usefulOpen, v.useful, m.quickLinksOpen, v.quickLinks,
      m.footBody, m.htmlClose, m.trailingIndent ]
  }

  /** The template literal, trimmed. */
  function Render(m: Markup, v: Values): string {
    Trim(Concat(Pieces(m, v)))
  }

  /** `generateEmailHtml(data)`: the document starts with the doctype, ends with the
      closing `html` tag, and has no white space at either end. */
  function GenerateEmailHtml(d: Content, sanitize: string -> string, numberText: real -> string): (r: string)
    ensures StartsWith(r, Doctype) && EndsWith(r, HtmlClose)
    ensures !IsWhitespace(r[0]) && !IsWhitespace(r[|r| - 1])
  {
    var v := Interpolate(d, sanitize, numberText);
    TemplateFramed();
    RenderFramed(Template, v);
    Render(Template, v)
  }

  lemma TemplateFramed()
    ensures Template.Framed() && Template.doctype == Doctype && Template.htmlClose == HtmlClose
  {
    assert Doctype[0] == '<';
    assert HtmlClose[|HtmlClose| - 1] == '>';
  }

  /** Trimming removes exactly the line break before the doctype and the indentation
      after the closing `html` tag. */
  lemma RenderFramed(m: Markup, v: Values)
    requires m.Framed()
    ensures Render(m, v) == Concat(Pieces(m, v)[1..53])
    ensures StartsWith(Render(m, v), m.doctype) && EndsWith(Render(m, v), m.htmlClose)
    ensures var r := Render(m, v); !IsWhitespace(r[0]) && !IsWhitespace(r[|r| - 1])
  {
    var ps := Pieces(m, v);
    assert ps[0] == m.leadingBreak && ps[1] == m.doctype;
    assert ps[52] == m.htmlClose && ps[53] == m.trailingIndent;
    FramedTrim(ps);
  }

  /** A document whose first piece is white space, whose second piece starts visibly,
      whose second-to-last piece ends visibly and whose last piece is white space trims to
      the pieces in between. */
  lemma FramedTrim(ps: seq<string>)
    requires |ps| >= 4
    requires AllWhitespace(ps[0]) && AllWhitespace(ps[|ps| - 1])
    requires ps[1] != [] && !IsWhitespace(ps[1][0])
    requires ps[|ps| - 2] != [] && !IsWhitespace(ps[|ps| - 2][|ps[|ps| - 2]| - 1])
    ensures Trim(Concat(ps)) == Concat(ps[1..|ps| - 1])
    ensures StartsWith(Concat(ps[1..|ps| - 1]), ps[1])
    ensures EndsWith(Concat(ps[1..|ps| - 1]), ps[|ps| - 2])
  {
    var inner := ps[1..|ps| - 1];
    var a, b := ps[1], ps[|ps| - 2];
    ConcatEnds(ps);
    ConcatEnds(inner);
    assert inner[0] == a && inner[|inner| - 1] == b;
    PrefixSuffix(a, Concat(inner[1..|inner| - 1]), b);
    TrimFramed(ps[0], Concat(inner), ps[|ps| - 1]);
  }

  /** The ends of a three-part text are the ends of its outer parts. */
  lemma PrefixSuffix(a: string, b: string, c: string)
    requires a != [] && c != []
    ensures StartsWith(a + b + c, a) && EndsWith(a + b + c, c)
    ensures (a + b + c)[0] == a[0] && (a + b + c)[|a + b + c| - 1] == c[|c| - 1]
  {
    var s := a + b + c;
    assert s[..|a|] == a;
    assert s[|s| - |c|..] == c;
  }

  // ---------------------------------------------------------------------------
  // Properties of the document

  /** Where each field's contribution stands among the pieces. */
  function SlotOf(f: Field): (k: nat)
    requires f.IsRichText() || f.IsImage()
    ensures k < 54
  {
    match f
    case LeadershipBodyHtml => 20
    case ImportantAnnouncementsHtml => 24
    case ComplianceRemindersHtml => 26
    case SafetyRemindersHtml => 30
    case SpecialMessageHtml => 32
    case CsrHtml => 34
    case EmployeeEventsHtml => 40
    case WinsAndShoutoutsHtml => 46
    case UsefulInfoHtml => 48
    case BackgroundImage => 8
    case LeadershipImage => 22
    case ComplianceImage => 28
    case CsrImage1 => 36
    case CsrImage2 => 38
    case EventsImage1 => 42
    case EventsImage2 => 44
  }

  /** Each rich-text and image value has its own place in the template. */
  lemma SlotHoldsValue(m: Markup, v: Values, f: Field)
    requires f.IsRichText() || f.IsImage()
    ensures Pieces(m, v)[SlotOf(f)] == v.Of(f)
  {
  }

  /** Each rich-text section is the sanitizer's output for its field, each image section
      is the image's markup, empty exactly when its field is, and the background slot is
      the background row. */
  lemma PieceOfField(d: Content, sanitize: string -> string, numberText: real -> string, f: Field)
    requires f.IsRichText() || f.IsImage()
    ensures var ps := Pieces(Template, Interpolate(d, sanitize, numberText));
      && (f.IsRichText() ==> ps[SlotOf(f)] == sanitize(d.Get(f)))
      && (f.IsImage() ==> (ps[SlotOf(f)] == "" <==> d.Get(f) == ""))
      && (f.IsImage() && !f.BackgroundImage? ==> ps[SlotOf(f)] == ImageMarkup(f, d.Get(f)))
      && (f.BackgroundImage? ==>
            ps[SlotOf(f)] == BackgroundRow(d.backgroundImage, d.backgroundMode, d.backgroundOpacity, numberText))
  {
    var v := Interpolate(d, sanitize, numberText);
    SlotHoldsValue(Template, v, f);
    ValueOfField(d, sanitize, numberText, f);
  }

  /** The value for a rich-text field is the sanitizer's output for it; the value for an
      inline image field is its markup, empty exactly when the field is. */
  lemma ValueOfField(d: Content, sanitize: string -> string, numberText: real -> string, f: Field)
    requires f.IsRichText() || f.IsImage()
    ensures var v := Interpolate(d, sanitize, numberText);
      && (f.IsRichText() ==> v.Of(f) == sanitize(d.Get(f)))
      && (f.IsImage() ==> (v.Of(f) == "" <==> d.Get(f) == ""))
      && (f.IsImage() && !f.BackgroundImage? ==> v.Of(f) == ImageMarkup(f, d.Get(f)))
      && (f.BackgroundImage? ==>
            v.Of(f) == BackgroundRow(d.backgroundImage, d.backgroundMode, d.backgroundOpacity, numberText))
  {
    var v := Interpolate(d, sanitize, numberText);
    match f
    case LeadershipImage => assert v.leadershipImage == ImageMarkup(f, d.leadershipImage);
    case ComplianceImage => assert v.complianceImage == ImageMarkup(f, d.complianceImage);
    case CsrImage1 => assert v.csrImage1 == ImageMarkup(f, d.csrImage1);
    case CsrImage2 => assert v.csrImage2 == ImageMarkup(f, d.csrImage2);
    case EventsImage1 => assert v.eventsImage1 == ImageMarkup(f, d.eventsImage1);
    case EventsImage2 => assert v.eventsImage2 == ImageMarkup(f, d.eventsImage2);
    case _ =>
  }

  /** The record with every rich-text field replaced by its sanitized form. */
  function SanitizeFields(d: Content, sanitize: string -> string): (r: Content)
    ensures forall f: Field | f.IsRichText() :: r.Get(f) == sanitize(d.Get(f))
    ensures forall f: Field | !f.IsRichText() :: r.Get(f) == d.Get(f)
    ensures r.quickLinks == d.quickLinks && r.backgroundOpacity == d.backgroundOpacity
  {
    d.(leadershipBodyHtml := sanitize(d.leadershipBodyHtml),
       importantAnnouncementsHtml := sanitize(d.importantAnnouncementsHtml),
       complianceRemindersHtml := sanitize(d.complianceRemindersHtml),
       safetyRemindersHtml := sanitize(d.safetyRemindersHtml),
       specialMessageHtml := sanitize(d.specialMessageHtml),
       winsAndShoutoutsHtml := sanitize(d.winsAndShoutoutsHtml),
       csrHtml := sanitize(d.csrHtml),
       employeeEventsHtml := sanitize(d.employeeEventsHtml),
       usefulInfoHtml := sanitize(d.usefulInfoHtml))
  }

  /** Rich text reaches the document only through the sanitizer: the values of a record
      are the values of its sanitized copy taken with no sanitizer at all, whatever the
      sanitizer does. Were any field embedded raw, the two would differ in that place. */
  lemma InterpolateOnlySanitized(d: Content, sanitize: string -> string, numberText: real -> string)
    ensures Interpolate(d, sanitize, numberText)
         == Interpolate(SanitizeFields(d, sanitize), s => s, numberText)
  {
  }

  lemma RichTextOnlySanitized(d: Content, sanitize: string -> string, numberText: real -> string)
    ensures GenerateEmailHtml(d, sanitize, numberText)
         == GenerateEmailHtml(SanitizeFields(d, sanitize), s => s, numberText)
  {
    InterpolateOnlySanitized(d, sanitize, numberText);
  }

  /** The page title is the escaped newsletter name, a dash and the escaped edition. */
  lemma RenderTitle(m: Markup, v: Values)
    requires m.Framed()
    ensures StartsWith(Render(m, v),
      m.doctype + m.headRest + v.name + m.titleSep + v.edition + m.titleClose)
  {
    var ps := Pieces(m, v);
    var inner := ps[1..53];
    RenderFramed(m, v);
    ConcatPrefix(inner, 6);
    assert ps[..9] == HeadPieces(m, v);
    assert inner[..6] == ps[..9][1..7];
    assert inner[..6] == [m.doctype, m.headRest, v.name, m.titleSep, v.edition, m.titleClose];
    ConcatSix(m.doctype, m.headRest, v.name, m.titleSep, v.edition, m.titleClose);
  }

  lemma DocumentTitle(d: Content, sanitize: string -> string, numberText: real -> string)
    ensures StartsWith(GenerateEmailHtml(d, sanitize, numberText),
      Doctype + HeadRest + EscapeAttr(d.newsletterName) + TitleSep + EscapeAttr(d.edition) + TitleClose)
  {
    TemplateFramed();
    RenderTitle(Template, Interpolate(d, sanitize, numberText));
  }
}
