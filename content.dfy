/**
 * The newsletter's content record: the `data` object the editor updates and the
 * exporter renders. Text fields the source may leave `undefined` are modelled as ""
 * (every reader treats both alike: default parameters and falsy tests); the two
 * fields whose absence the source tests for separately are optional.
 */
module Content {
  import opened Wrappers

  /** One quick-link slot `{ label, url }`; `text` is the source's `label`, a word Dafny
      reserves. */
  datatype QuickLink = QuickLink(text: string, url: string) {

    function Get(f: LinkField): string {
      match f
      case Label => text
      case Url => url
    }

    /** `{ ...q, [field]: value }`. */
    function With(f: LinkField, v: string): (r: QuickLink)
      ensures r.Get(f) == v
      ensures forall g :: g != f ==> r.Get(g) == Get(g)
    {
      match f
      case Label => this.(text := v)
      case Url => this.(url := v)
    }

    /** The filter `q => q.label || q.url` of the exporter. */
    predicate IsShown() {
      text != "" || url != ""
    }
  }

  datatype LinkField = Label | Url

  /** A slot the source never wrote: every reader sees empty label and url. */
  const BlankLink := QuickLink("", "")

  /** The string-valued fields that `updateField` is called with. */
  datatype Field =
    | NewsletterName | Edition | IssueTitle | IssueName | LogoUrl | LeadershipTitle
    | LeadershipBodyHtml | ImportantAnnouncementsHtml | ComplianceRemindersHtml
    | SafetyRemindersHtml | SpecialMessageHtml | WinsAndShoutoutsHtml | CsrHtml
    | EmployeeEventsHtml | UsefulInfoHtml
    | LeadershipImage | ComplianceImage | CsrImage1 | CsrImage2 | EventsImage1 | EventsImage2
    | BackgroundImage | BackgroundMode
  {
    /** Fields holding HTML from the rich-text editor. */
    predicate IsRichText() {
      || LeadershipBodyHtml? || ImportantAnnouncementsHtml? || ComplianceRemindersHtml?
      || SafetyRemindersHtml? || SpecialMessageHtml? || WinsAndShoutoutsHtml? || CsrHtml?
      || EmployeeEventsHtml? || UsefulInfoHtml?
    }

    /** Fields holding an image (a data URL, or "" for none). */
    predicate IsImage() {
      || LeadershipImage? || ComplianceImage? || CsrImage1? || CsrImage2? || EventsImage1?
      || EventsImage2? || BackgroundImage?
    }
  }

  datatype Content = Content(
    newsletterName: string,
    edition: string,
    issueTitle: string,
    issueName: string,
    logoUrl: string,
    leadershipTitle: string,
    leadershipBodyHtml: string,
    importantAnnouncementsHtml: string,
    complianceRemindersHtml: string,
    safetyRemindersHtml: string,
    specialMessageHtml: string,
    winsAndShoutoutsHtml: string,
    csrHtml: string,
    employeeEventsHtml: string,
    usefulInfoHtml: string,
    quickLinks: Option<seq<QuickLink>>,
    leadershipImage: string,
    complianceImage: string,
    csrImage1: string,
    csrImage2: string,
    eventsImage1: string,
    eventsImage2: string,
    backgroundImage: string,
    backgroundMode: string,
    backgroundOpacity: Option<real>)
  {
    /** `data[field]` for a string-valued field. */
    function Get(f: Field): string {
      match f
      case NewsletterName => newsletterName
      case Edition => edition
      case IssueTitle => issueTitle
      case IssueName => issueName
      case LogoUrl => logoUrl
      case LeadershipTitle => leadershipTitle
      case LeadershipBodyHtml => leadershipBodyHtml
      case ImportantAnnouncementsHtml => importantAnnouncementsHtml
      case ComplianceRemindersHtml => complianceRemindersHtml
      case SafetyRemindersHtml => safetyRemindersHtml
      case SpecialMessageHtml => specialMessageHtml
      case WinsAndShoutoutsHtml => winsAndShoutoutsHtml
      case CsrHtml => csrHtml
      case EmployeeEventsHtml => employeeEventsHtml
      case UsefulInfoHtml => usefulInfoHtml
      case LeadershipImage => leadershipImage
      case ComplianceImage => complianceImage
      case CsrImage1 => csrImage1
      case CsrImage2 => csrImage2
      case EventsImage1 => eventsImage1
      case EventsImage2 => eventsImage2
      case BackgroundImage => backgroundImage
      case BackgroundMode => backgroundMode
    }

    /** `{ ...prev, [field]: value }`: the one field takes the value, every other field,
        the quick links and the opacity keep theirs. */
    function With(f: Field, v: string): (r: Content)
      ensures r.Get(f) == v
      ensures forall g :: g != f ==> r.Get(g) == Get(g)
      ensures r.quickLinks == quickLinks && r.backgroundOpacity == backgroundOpacity
    {
      match f
      case NewsletterName => this.(newsletterName := v)
      case Edition => this.(edition := v)
      case IssueTitle => this.(issueTitle := v)
      case IssueName => this.(issueName := v)
      case LogoUrl => this.(logoUrl := v)
      case LeadershipTitle => this.(leadershipTitle := v)
      case LeadershipBodyHtml => this.(leadershipBodyHtml := v)
      case ImportantAnnouncementsHtml => this.(importantAnnouncementsHtml := v)
      case ComplianceRemindersHtml => this.(complianceRemindersHtml := v)
      case SafetyRemindersHtml => this.(safetyRemindersHtml := v)
      case SpecialMessageHtml => this.(specialMessageHtml := v)
      case WinsAndShoutoutsHtml => this.(winsAndShoutoutsHtml := v)
      case CsrHtml => this.(csrHtml := v)
      case EmployeeEventsHtml => this.(employeeEventsHtml := v)
      case UsefulInfoHtml => this.(usefulInfoHtml := v)
      case LeadershipImage => this.(leadershipImage := v)
      case ComplianceImage => this.(complianceImage := v)
      case CsrImage1 => this.(csrImage1 := v)
      case CsrImage2 => this.(csrImage2 := v)
      case EventsImage1 => this.(eventsImage1 := v)
      case EventsImage2 => this.(eventsImage2 := v)
      case BackgroundImage => this.(backgroundImage := v)
      case BackgroundMode => this.(backgroundMode := v)
    }
  }

  /** Two records are the same exactly when they agree on every field, so the frame
      conditions stated through `Get` say everything about a record. */
  lemma ContentExtensional(a: Content, b: Content)
    ensures a == b <==>
      && (forall f :: a.Get(f) == b.Get(f))
      && a.quickLinks == b.quickLinks
      && a.backgroundOpacity == b.backgroundOpacity
  {
    if && (forall f :: a.Get(f) == b.Get(f))
       && a.quickLinks == b.quickLinks
       && a.backgroundOpacity == b.backgroundOpacity
    {
      SameFieldsSame(a, b);
    }
  }

  lemma SameFieldsSame(a: Content, b: Content)
    requires forall f :: a.Get(f) == b.Get(f)
    requires a.quickLinks == b.quickLinks && a.backgroundOpacity == b.backgroundOpacity
    ensures a == b
  {
    assert a.newsletterName == b.newsletterName by { assert a.Get(NewsletterName) == b.Get(NewsletterName); }
    assert a.edition == b.edition by { assert a.Get(Edition) == b.Get(Edition); }
    assert a.issueTitle == b.issueTitle by { assert a.Get(IssueTitle) == b.Get(IssueTitle); }
    assert a.issueName == b.issueName by { assert a.Get(IssueName) == b.Get(IssueName); }
    assert a.logoUrl == b.logoUrl by { assert a.Get(LogoUrl) == b.Get(LogoUrl); }
    assert a.leadershipTitle == b.leadershipTitle by { assert a.Get(LeadershipTitle) == b.Get(LeadershipTitle); }
    assert a.leadershipBodyHtml == b.leadershipBodyHtml by { assert a.Get(LeadershipBodyHtml) == b.Get(LeadershipBodyHtml); }
    assert a.importantAnnouncementsHtml == b.importantAnnouncementsHtml by { assert a.Get(ImportantAnnouncementsHtml) == b.Get(ImportantAnnouncementsHtml); }
    assert a.complianceRemindersHtml == b.complianceRemindersHtml by { assert a.Get(ComplianceRemindersHtml) == b.Get(ComplianceRemindersHtml); }
    assert a.safetyRemindersHtml == b.safetyRemindersHtml by { assert a.Get(SafetyRemindersHtml) == b.Get(SafetyRemindersHtml); }
    assert a.specialMessageHtml == b.specialMessageHtml by { assert a.Get(SpecialMessageHtml) == b.Get(SpecialMessageHtml); }
    assert a.winsAndShoutoutsHtml == b.winsAndShoutoutsHtml by { assert a.Get(WinsAndShoutoutsHtml) == b.Get(WinsAndShoutoutsHtml); }
    assert a.csrHtml == b.csrHtml by { assert a.Get(CsrHtml) == b.Get(CsrHtml); }
    assert a.employeeEventsHtml == b.employeeEventsHtml by { assert a.Get(EmployeeEventsHtml) == b.Get(EmployeeEventsHtml); }
    assert a.usefulInfoHtml == b.usefulInfoHtml by { assert a.Get(UsefulInfoHtml) == b.Get(UsefulInfoHtml); }
    assert a.leadershipImage == b.leadershipImage by { assert a.Get(LeadershipImage) == b.Get(LeadershipImage); }
    assert a.complianceImage == b.complianceImage by { assert a.Get(ComplianceImage) == b.Get(ComplianceImage); }
    assert a.csrImage1 == b.csrImage1 by { assert a.Get(CsrImage1) == b.Get(CsrImage1); }
    assert a.csrImage2 == b.csrImage2 by { assert a.Get(CsrImage2) == b.Get(CsrImage2); }
    assert a.eventsImage1 == b.eventsImage1 by { assert a.Get(EventsImage1) == b.Get(EventsImage1); }
    assert a.eventsImage2 == b.eventsImage2 by { assert a.Get(EventsImage2) == b.Get(EventsImage2); }
    assert a.backgroundImage == b.backgroundImage by { assert a.Get(BackgroundImage) == b.Get(BackgroundImage); }
    assert a.backgroundMode == b.backgroundMode by { assert a.Get(BackgroundMode) == b.Get(BackgroundMode); }
  }

  /** Writing a field's own value back changes nothing. */
  lemma WithOwnValue(d: Content, f: Field)
    ensures d.With(f, d.Get(f)) == d
  {
    SameFieldsSame(d.With(f, d.Get(f)), d);
  }

  /** A second write to a field overrides the first. */
  lemma WithOverwrite(d: Content, f: Field, v: string, w: string)
    ensures d.With(f, v).With(f, w) == d.With(f, w)
  {
    SameFieldsSame(d.With(f, v).With(f, w), d.With(f, w));
  }

  /** `updateQuickLink`'s list step: copy the list and overwrite one field of slot `idx`.
      Writing just past the end appends a slot holding only that field. */
  function SetSlot(links: seq<QuickLink>, idx: nat, f: LinkField, v: string): (r: seq<QuickLink>)
    requires idx <= |links|
    ensures |r| == if idx < |links| then |links| else |links| + 1
    ensures r[idx].Get(f) == v
    ensures forall g :: g != f ==>
      r[idx].Get(g) == (if idx < |links| then links[idx] else BlankLink).Get(g)
    ensures forall j | 0 <= j < |r| && j != idx :: r[j] == links[j]
  {
    if idx < |links| then links[idx := links[idx].With(f, v)]
    else links + [BlankLink.With(f, v)]
  }

  /** Writing a slot's own value back leaves the list as it was. */
  lemma SetSlotOwnValue(links: seq<QuickLink>, idx: nat, f: LinkField)
    requires idx < |links|
    ensures SetSlot(links, idx, f, links[idx].Get(f)) == links
  {
    var q := links[idx];
    assert q.With(f, q.Get(f)) == q by {
      match f
      case Label =>
      case Url =>
    }
  }
}
