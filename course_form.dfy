/** The admin course form of frontend/src/pages/AdminDashboard.jsx: the
    save-time guards and the payload normalizer (pure), and the form state
    with its change handlers, cascading select resets, company list and
    extra-link lists (a class whose methods replace its fields). */
module CourseForm {
  import opened Records
  import opened Seqs

  // ------------------------------------------------------------ form values

  /** The value of an `<input type="number">`: empty, or a number. */
  datatype AmountInput = Blank | Typed(value: real)

  /** `!amount || Number(amount) <= 0`: an empty input, or a number that is
      not positive. */
  predicate AmountMissing(a: AmountInput) {
    a.Blank? || a.value <= 0.0
  }

  /** `Number(amount)`: the empty string reads as 0. */
  function NumberOf(a: AmountInput): real {
    if a.Blank? then 0.0 else a.value
  }

  /** An extra course link ("Link 2-5") as the form holds it. */
  datatype ResourceLink = ResourceLink(linkLabel: string, url: string, provider: string, kind: PriceType, amount: AmountInput)

  /** A certification link as the form holds it. */
  datatype CertificateLink = CertificateLink(linkLabel: string, url: string, kind: PriceType, amount: AmountInput)

  /** A link's price is given when it is Paid. */
  predicate ResourcePriced(l: ResourceLink) {
    l.kind == Paid ==> !AmountMissing(l.amount)
  }

  predicate CertificatePriced(l: CertificateLink) {
    l.kind == Paid ==> !AmountMissing(l.amount)
  }

  /** The `formData` state. The select fields hold an id or the empty string;
      the type select also offers "-- Select --", whose empty value is `None`. */
  datatype FormData = FormData(
    title: string,
    skill: string,
    kind: Option<PriceType>,
    amount: AmountInput,
    provider: string,
    duration: string,
    link: string,
    resourceLinks: seq<ResourceLink>,
    description: string,
    stream: string,
    subDomain: string,
    role: string,
    certificateLinks: seq<CertificateLink>,
    targetCompanies: seq<string>)

  /** The form an add modal starts from. */
  function EmptyForm(): FormData {
    FormData("", "", Some(Free), Blank, "", "", "", [], "", "", "", "", [], [])
  }

  /** The drafts the link inputs start from: a Free course link, a Paid
      certification. */
  const EmptyResourceDraft: ResourceLink := ResourceLink("", "", "", Free, Blank)
  const EmptyCertificateDraft: CertificateLink := CertificateLink("", "", Paid, Blank)

  /** The plain text inputs wired to `handleFormChange`. */
  datatype TextField = Title | Skill | Provider | Duration | Link | Description

  function Text(d: FormData, f: TextField): string {
    match f
    case Title => d.title
    case Skill => d.skill
    case Provider => d.provider
    case Duration => d.duration
    case Link => d.link
    case Description => d.description
  }

  function WithText(d: FormData, f: TextField, v: string): FormData {
    match f
    case Title => d.(title := v)
    case Skill => d.(skill := v)
    case Provider => d.(provider := v)
    case Duration => d.(duration := v)
    case Link => d.(link := v)
    case Description => d.(description := v)
  }

  /** An input event handled by `handleFormChange`: a text input, or the
      type select (`None` for its "-- Select --" entry). */
  datatype FieldChange = TextChange(field: TextField, value: string) | TypeChange(kind: Option<PriceType>)

  /** `handleFormChange`: switching the type to Free also clears the amount;
      any other change, "-- Select --" included, sets the named field alone. */
  function Changed(d: FormData, ch: FieldChange): (r: FormData)
    ensures ch.TextChange? ==> forall g :: Text(r, g) == (if g == ch.field then ch.value else Text(d, g))
    ensures ch.TextChange? ==> r.kind == d.kind && r.amount == d.amount
    ensures ch.TypeChange? ==> r.kind == ch.kind && forall g :: Text(r, g) == Text(d, g)
    ensures ch.TypeChange? ==> (ch.kind == Some(Free) ==> r.amount == Blank) && (ch.kind != Some(Free) ==> r.amount == d.amount)
    ensures r.stream == d.stream && r.subDomain == d.subDomain && r.role == d.role
    ensures r.resourceLinks == d.resourceLinks && r.certificateLinks == d.certificateLinks
    ensures r.targetCompanies == d.targetCompanies
  {
    match ch
    case TextChange(f, v) => WithText(d, f, v)
    case TypeChange(k) => if k == Some(Free) then d.(kind := k, amount := Blank) else d.(kind := k)
  }

  // ------------------------------------------------------ save and payload

  /** The alerts `handleSaveCourse` can raise, in the order it checks. */
  datatype SaveError =
    | MissingLink
    | TooManyResourceLinks
    | TooManyCertificateLinks
    | MissingCourseAmount
    | MissingResourceAmount
    | MissingCertificateAmount

  function SaveAlert(e: SaveError): string {
    match e
    case MissingLink => "Primary course link is required"
    case TooManyResourceLinks => "Max 4 extra links"
    case TooManyCertificateLinks => "Max 5 certification links"
    case MissingCourseAmount => "Please provide amount for paid courses"
    case MissingResourceAmount => "Add amount for paid course links"
    case MissingCertificateAmount => "Add amount for paid certifications"
  }

  /** Links as sent to the server: the amount is a number. */
  datatype PricedResourceLink = PricedResourceLink(linkLabel: string, url: string, provider: string, kind: PriceType, amount: real)
  datatype PricedCertificateLink = PricedCertificateLink(linkLabel: string, url: string, kind: PriceType, amount: real)

  /** The request body of a save. */
  datatype CoursePayload = CoursePayload(
    title: string,
    skill: string,
    kind: Option<PriceType>,
    amount: real,
    provider: string,
    duration: string,
    link: string,
    resourceLinks: seq<PricedResourceLink>,
    description: string,
    stream: Option<Id>,
    subDomain: Option<Id>,
    role: Option<Id>,
    certificateLinks: seq<PricedCertificateLink>,
    targetCompanies: seq<string>)

  /** `value || null`. */
  function OrNull(s: string): Option<Id> {
    if s == "" then None else Some(s)
  }

  /** A Paid link keeps `Number(amount) || 0`, a Free one gets 0. */
  function NormalizeResource(l: ResourceLink): PricedResourceLink {
    PricedResourceLink(l.linkLabel, l.url, l.provider, l.kind, if l.kind == Paid then NumberOf(l.amount) else 0.0)
  }

  function NormalizeCertificate(l: CertificateLink): PricedCertificateLink {
    PricedCertificateLink(l.linkLabel, l.url, l.kind, if l.kind == Paid then NumberOf(l.amount) else 0.0)
  }

  /** The payload built from a form that passed the checks. */
  function Normalize(d: FormData): CoursePayload {
    CoursePayload(
      d.title, d.skill, d.kind,
      if d.kind == Some(Paid) then NumberOf(d.amount) else 0.0,
      d.provider, d.duration, d.link,
      seq(|d.resourceLinks|, i requires 0 <= i < |d.resourceLinks| => NormalizeResource(d.resourceLinks[i])),
      d.description,
      OrNull(d.stream), OrNull(d.subDomain), OrNull(d.role),
      seq(|d.certificateLinks|, i requires 0 <= i < |d.certificateLinks| => NormalizeCertificate(d.certificateLinks[i])),
      d.targetCompanies)
  }

  /** `handleSaveCourse`: the checks in order, the first failing one alerts
      and nothing is sent; otherwise the normalized payload is sent. */
  function SaveCourse(d: FormData): Result<CoursePayload, SaveError> {
    if d.link == "" then Err(MissingLink)
    else if |d.resourceLinks| > 4 then Err(TooManyResourceLinks)
    else if |d.certificateLinks| > 5 then Err(TooManyCertificateLinks)
    else if d.kind == Some(Paid) && AmountMissing(d.amount) then Err(MissingCourseAmount)
    else if exists i :: 0 <= i < |d.resourceLinks| && !ResourcePriced(d.resourceLinks[i]) then Err(MissingResourceAmount)
    else if exists i :: 0 <= i < |d.certificateLinks| && !CertificatePriced(d.certificateLinks[i]) then Err(MissingCertificateAmount)
    else Ok(Normalize(d))
  }

  /** What a form must satisfy to be sent, as one unordered condition. */
  predicate Acceptable(d: FormData) {
    && d.link != ""
    && |d.resourceLinks| <= 4
    && |d.certificateLinks| <= 5
    && (d.kind == Some(Paid) ==> !AmountMissing(d.amount))
    && (forall l :: l in d.resourceLinks ==> ResourcePriced(l))
    && (forall l :: l in d.certificateLinks ==> CertificatePriced(l))
  }

  /** A payload in which the course costs 0 unless it is Paid, every Free
      link costs 0 and every Paid item costs more than 0. */
  predicate PayloadPriced(p: CoursePayload) {
    && (p.kind != Some(Paid) ==> p.amount == 0.0)
    && (p.kind == Some(Paid) ==> p.amount > 0.0)
    && (forall l :: l in p.resourceLinks ==> (l.kind == Free ==> l.amount == 0.0) && (l.kind == Paid ==> l.amount > 0.0))
    && (forall l :: l in p.certificateLinks ==> (l.kind == Free ==> l.amount == 0.0) && (l.kind == Paid ==> l.amount > 0.0))
  }

  /** A save is sent exactly when the form is acceptable, and when it is
      refused the alert is that of the first failing check. */
  lemma SaveCourseFirstFailure(d: FormData)
    ensures SaveCourse(d).Ok? <==> Acceptable(d)
    ensures SaveCourse(d) == Err(MissingLink) <==> d.link == ""
    ensures SaveCourse(d) == Err(TooManyResourceLinks) <==> d.link != "" && |d.resourceLinks| > 4
    ensures SaveCourse(d) == Err(TooManyCertificateLinks)
        <==> d.link != "" && |d.resourceLinks| <= 4 && |d.certificateLinks| > 5
    ensures SaveCourse(d) == Err(MissingCourseAmount)
        <==> d.link != "" && |d.resourceLinks| <= 4 && |d.certificateLinks| <= 5 && d.kind == Some(Paid) && AmountMissing(d.amount)
    ensures SaveCourse(d) == Err(MissingResourceAmount)
        <==> d.link != "" && |d.resourceLinks| <= 4 && |d.certificateLinks| <= 5
             && (d.kind == Some(Paid) ==> !AmountMissing(d.amount))
             && exists l :: l in d.resourceLinks && !ResourcePriced(l)
    ensures SaveCourse(d) == Err(MissingCertificateAmount)
        <==> d.link != "" && |d.resourceLinks| <= 4 && |d.certificateLinks| <= 5
             && (d.kind == Some(Paid) ==> !AmountMissing(d.amount))
             && (forall l :: l in d.resourceLinks ==> ResourcePriced(l))
             && exists l :: l in d.certificateLinks && !CertificatePriced(l)
  {
    if exists l :: l in d.resourceLinks && !ResourcePriced(l) {
      var l :| l in d.resourceLinks && !ResourcePriced(l);
      var i :| 0 <= i < |d.resourceLinks| && d.resourceLinks[i] == l;
    }
    if exists l :: l in d.certificateLinks && !CertificatePriced(l) {
      var l :| l in d.certificateLinks && !CertificatePriced(l);
      var i :| 0 <= i < |d.certificateLinks| && d.certificateLinks[i] == l;
    }
  }

  /** The payload of a sent save: every Free item costs 0, every Paid item
      costs the positive amount typed, the lists keep their length and the
      empty references are null. */
  lemma SavedPayloadNormalized(d: FormData)
    requires SaveCourse(d).Ok?
    ensures var p := SaveCourse(d).value;
      && PayloadPriced(p)
      && p.link != "" && |p.resourceLinks| <= 4 && |p.certificateLinks| <= 5
      && (p.kind == Some(Paid) ==> p.amount == d.amount.value)
      && |p.resourceLinks| == |d.resourceLinks|
      && (forall i :: 0 <= i < |d.resourceLinks| ==>
            p.resourceLinks[i].url == d.resourceLinks[i].url
            && (d.resourceLinks[i].kind == Paid ==> p.resourceLinks[i].amount == d.resourceLinks[i].amount.value))
      && |p.certificateLinks| == |d.certificateLinks|
      && (forall i :: 0 <= i < |d.certificateLinks| ==>
            p.certificateLinks[i].url == d.certificateLinks[i].url
            && (d.certificateLinks[i].kind == Paid ==> p.certificateLinks[i].amount == d.certificateLinks[i].amount.value))
      && (p.stream.None? <==> d.stream == "") && (p.stream.Some? ==> p.stream.value == d.stream)
      && (p.subDomain.None? <==> d.subDomain == "") && (p.subDomain.Some? ==> p.subDomain.value == d.subDomain)
      && (p.role.None? <==> d.role == "") && (p.role.Some? ==> p.role.value == d.role)
  {
    var p := SaveCourse(d).value;
    forall l | l in p.resourceLinks
      ensures (l.kind == Free ==> l.amount == 0.0) && (l.kind == Paid ==> l.amount > 0.0)
    {
      var i :| 0 <= i < |p.resourceLinks| && p.resourceLinks[i] == l;
      assert ResourcePriced(d.resourceLinks[i]);
    }
    forall l | l in p.certificateLinks
      ensures (l.kind == Free ==> l.amount == 0.0) && (l.kind == Paid ==> l.amount > 0.0)
    {
      var i :| 0 <= i < |p.certificateLinks| && p.certificateLinks[i] == l;
      assert CertificatePriced(d.certificateLinks[i]);
    }
  }

  /** `Course.create(payload)`: the schema keeps only the fields it
      declares, so amounts and both link lists are dropped and the
      certifications list starts empty; a required string that is empty,
      or an empty type (required, and outside the enum), fails validation. */
  function CreateCourse(id: Id, p: CoursePayload): (r: Option<Course>)
    ensures r.Some? <==> p.title != "" && p.skill != "" && p.provider != "" && p.link != "" && p.kind.Some?
    ensures r.Some? ==> ValidCourse(r.value) && r.value.id == id && Some(r.value.kind) == p.kind
    ensures r.Some? ==> r.value.stream == p.stream && r.value.subDomain == p.subDomain && r.value.role == p.role
    ensures r.Some? ==> r.value.certifications == [] && r.value.targetCompanies == p.targetCompanies
  {
    if p.kind.None? then None
    else
      var c := Course(id, p.title, p.skill, p.stream, p.subDomain, p.role, p.kind.value, p.provider,
                      p.duration, p.link, p.description, [], p.targetCompanies);
      if ValidCourse(c) then Some(c) else None
  }

  /** Two payloads that differ only in their amounts and link lists create
      the same course: the paid-amount rule lives in the form alone. */
  lemma CreateCourseIgnoresPricing(id: Id, p: CoursePayload, amount: real,
                                   links: seq<PricedResourceLink>, certs: seq<PricedCertificateLink>)
    ensures CreateCourse(id, p.(amount := amount, resourceLinks := links, certificateLinks := certs)) == CreateCourse(id, p)
  {
  }

  /** A form whose type select was set back to "-- Select --" passes every
      check the form makes, whatever its amount, and is sent with amount 0;
      the server then refuses to create the course. */
  lemma UnsetTypeSentButRefused(d: FormData, id: Id)
    requires d.kind.None?
    requires d.link != "" && |d.resourceLinks| <= 4 && |d.certificateLinks| <= 5
    requires forall l :: l in d.resourceLinks ==> ResourcePriced(l)
    requires forall l :: l in d.certificateLinks ==> CertificatePriced(l)
    ensures SaveCourse(d).Ok? && SaveCourse(d).value.amount == 0.0
    ensures CreateCourse(id, SaveCourse(d).value).None?
  {
    SaveCourseFirstFailure(d);
  }

  // ------------------------------------------------------------- companies

  /** `addCompany`: an empty name or one already listed changes nothing;
      otherwise the name is appended. */
  function CompanyAdded(companies: seq<string>, name: string): (r: seq<string>)
    ensures name == "" || name in companies ==> r == companies
    ensures name != "" && name !in companies ==> |r| == |companies| + 1 && r[..|companies|] == companies && r[|companies|] == name
    ensures NoDuplicates(companies) ==> NoDuplicates(r)
  {
    if name == "" || name in companies then companies else companies + [name]
  }

  /** `removeCompany`: every entry equal to `name` goes, the rest keep
      their order. */
  function CompanyRemoved(companies: seq<string>, name: string): (r: seq<string>)
    ensures name !in r
    ensures forall c :: c != name ==> (c in r <==> c in companies)
    ensures multiset(r) == multiset(companies)[name := 0]
    ensures NoDuplicates(companies) ==> NoDuplicates(r)
  {
    var keep := (c: string) => c != name;
    FilterMultiset(companies, keep);
    assert multiset(Filter(companies, keep)) == multiset(companies)[name := 0];
    if NoDuplicates(companies) then FilterKeepsNoDuplicates(companies, keep); Filter(companies, keep)
    else Filter(companies, keep)
  }

  /** Removal keeps the order of the other companies: a company appended
      after the list is kept at the end unless it is the one removed. */
  lemma CompanyRemovedAppend(companies: seq<string>, c: string, name: string)
    ensures CompanyRemoved(companies + [c], name) == CompanyRemoved(companies, name) + (if c == name then [] else [c])
  {
    FilterAppend(companies, [c], (x: string) => x != name);
  }

  /** Removing a company just added restores the list. */
  lemma {:induction false} CompanyAddThenRemove(companies: seq<string>, name: string)
    requires name != "" && name !in companies
    ensures CompanyRemoved(CompanyAdded(companies, name), name) == companies
  {
    var p := (c: string) => c != name;
    FilterAppend(companies, [name], p);
    FilterAllKept(companies, p);
    assert Filter([name], p) == [];
  }

  // ----------------------------------------------------------- extra links

  /** What pressing an add button does: append, ignore, or alert. */
  datatype AddOutcome<T> = Added(list: T) | Ignored | Alerted(message: string)

  /** The add button of the extra course links. */
  function TryAddResource(links: seq<ResourceLink>, draft: ResourceLink): (r: AddOutcome<seq<ResourceLink>>)
    ensures r.Ignored? <==> draft.url == ""
    ensures r.Added? <==> draft.url != "" && |links| < 4 && ResourcePriced(draft)
    ensures r.Added? ==> r.list == links + [draft]
    ensures r.Alerted? ==> r.message == (if |links| >= 4 then "Max 5 links total (primary + 4 extras)." else "Enter amount for paid course link")
  {
    if draft.url == "" then Ignored
    else if |links| >= 4 then Alerted("Max 5 links total (primary + 4 extras).")
    else if draft.kind == Paid && AmountMissing(draft.amount) then Alerted("Enter amount for paid course link")
    else Added(links + [draft])
  }

  /** The add button of the certification links: ignored only when both url
      and label are empty. */
  function TryAddCertificate(links: seq<CertificateLink>, draft: CertificateLink): (r: AddOutcome<seq<CertificateLink>>)
    ensures r.Ignored? <==> draft.url == "" && draft.linkLabel == ""
    ensures r.Added? <==> (draft.url != "" || draft.linkLabel != "") && |links| < 5 && CertificatePriced(draft)
    ensures r.Added? ==> r.list == links + [draft]
    ensures r.Alerted? ==> r.message == (if |links| >= 5 then "Max 5 certification links." else "Enter amount for paid certification")
  {
    if draft.url == "" && draft.linkLabel == "" then Ignored
    else if |links| >= 5 then Alerted("Max 5 certification links.")
    else if draft.kind == Paid && AmountMissing(draft.amount) then Alerted("Enter amount for paid certification")
    else Added(links + [draft])
  }

  /** `filter((_, idx) => idx !== i)`: the entry at `i` goes, if there is one. */
  function RemoveAt<T>(s: seq<T>, i: nat): (r: seq<T>)
    ensures i < |s| ==> |r| == |s| - 1
    ensures i >= |s| ==> r == s
    ensures forall k :: 0 <= k < |r| ==> r[k] == (if k < i then s[k] else s[k + 1])
  {
    if i < |s| then s[..i] + s[i + 1..] else s
  }

  // ------------------------------------------------------------ form state

  /** What every transition of the editor keeps: the list caps, a price on
      every Paid link, no repeated company, and the select cascade (no
      sub-domain without a stream, no role without a sub-domain). */
  predicate FormInvariant(d: FormData) {
    && |d.resourceLinks| <= 4
    && |d.certificateLinks| <= 5
    && (forall l :: l in d.resourceLinks ==> ResourcePriced(l))
    && (forall l :: l in d.certificateLinks ==> CertificatePriced(l))
    && NoDuplicates(d.targetCompanies)
    && (d.stream == "" ==> d.subDomain == "")
    && (d.subDomain == "" ==> d.role == "")
  }

  /** Under the editor's invariant a save can only be refused for the
      primary link or the course amount; the list checks never fire. */
  lemma EditorSaveRefusals(d: FormData)
    requires FormInvariant(d)
    ensures SaveCourse(d).Err? ==> SaveCourse(d).error == MissingLink || SaveCourse(d).error == MissingCourseAmount
    ensures SaveCourse(d).Ok? <==> d.link != "" && (d.kind == Some(Paid) ==> !AmountMissing(d.amount))
  {
    forall i | 0 <= i < |d.resourceLinks| ensures ResourcePriced(d.resourceLinks[i]) {
      assert d.resourceLinks[i] in d.resourceLinks;
    }
    forall i | 0 <= i < |d.certificateLinks| ensures CertificatePriced(d.certificateLinks[i]) {
      assert d.certificateLinks[i] in d.certificateLinks;
    }
  }

  /** The modal's state: the form, the three drafts, and the option lists
      of the sub-domain and role selects. */
  class CourseEditor {
    var formData: FormData
    var newCourseLink: ResourceLink
    var newCertLink: CertificateLink
    var newCompany: string
    var subDomainOptions: seq<Id>
    var roleOptions: seq<Id>

    predicate Valid()
      reads this
    {
      FormInvariant(formData)
    }

    /** The initial state of the page. */
    constructor ()
      ensures Valid()
      ensures formData == EmptyForm() && newCourseLink == EmptyResourceDraft && newCertLink == EmptyCertificateDraft
      ensures newCompany == "" && subDomainOptions == [] && roleOptions == []
    {
      formData := EmptyForm();
      newCourseLink := EmptyResourceDraft;
      newCertLink := EmptyCertificateDraft;
      newCompany := "";
      subDomainOptions := [];
      roleOptions := [];
    }

    /** `openAddCourseModal`: the form and drafts go back to their empty
        state; the select options are left as they were. */
    method OpenAddCourseModal()
      modifies this`formData, this`newCourseLink, this`newCertLink, this`newCompany
      ensures Valid()
      ensures formData == EmptyForm() && newCourseLink == EmptyResourceDraft && newCertLink == EmptyCertificateDraft
      ensures newCompany == ""
    {
      formData := EmptyForm();
      newCourseLink := EmptyResourceDraft;
      newCertLink := EmptyCertificateDraft;
      newCompany := "";
    }

    method HandleFormChange(ch: FieldChange)
      requires Valid()
      modifies this`formData
      ensures Valid()
      ensures formData == Changed(old(formData), ch)
    {
      formData := Changed(formData, ch);
    }

    /** The amount input, shown for a Paid course. */
    method SetAmount(a: AmountInput)
      requires Valid()
      modifies this`formData
      ensures Valid()
      ensures formData == old(formData).(amount := a)
    {
      formData := formData.(amount := a);
    }

    /** `handleStreamChange`: the stream is set and the sub-domain and role
        cleared with their options; a chosen stream then gets the fetched
        sub-domains (`fetched` is `None` when the request fails or the
        answer has none). */
    method HandleStreamChange(streamId: Id, fetched: Option<seq<Id>>)
      requires Valid()
      modifies this`formData, this`subDomainOptions, this`roleOptions
      ensures Valid()
      ensures formData == old(formData).(stream := streamId, subDomain := "", role := "")
      ensures roleOptions == []
      ensures subDomainOptions == (if streamId != "" && fetched.Some? then fetched.value else [])
    {
      formData := formData.(stream := streamId, subDomain := "", role := "");
      roleOptions := [];
      if streamId == "" {
        subDomainOptions := [];
        return;
      }
      subDomainOptions := if fetched.Some? then fetched.value else [];
    }

    /** `handleSubDomainChange`, reachable only once a stream is chosen
        (the select is disabled before). */
    method HandleSubDomainChange(subDomainId: Id, fetched: Option<seq<Id>>)
      requires Valid() && formData.stream != ""
      modifies this`formData, this`roleOptions
      ensures Valid()
      ensures formData == old(formData).(subDomain := subDomainId, role := "")
      ensures roleOptions == (if subDomainId != "" && fetched.Some? then fetched.value else [])
    {
      formData := formData.(subDomain := subDomainId, role := "");
      if subDomainId == "" {
        roleOptions := [];
        return;
      }
      roleOptions := if fetched.Some? then fetched.value else [];
    }

    /** The role select, enabled once a sub-domain is chosen. */
    method SelectRole(roleId: Id)
      requires Valid() && formData.subDomain != ""
      modifies this`formData
      ensures Valid()
      ensures formData == old(formData).(role := roleId)
    {
      formData := formData.(role := roleId);
    }

    method SetNewCompany(name: string)
      modifies this`newCompany
      ensures newCompany == name
    {
      newCompany := name;
    }

    /** `addCompany`: the draft name is cleared only when it was added. */
    method AddCompany()
      requires Valid()
      modifies this`formData, this`newCompany
      ensures Valid()
      ensures formData == old(formData).(targetCompanies := CompanyAdded(old(formData.targetCompanies), old(newCompany)))
      ensures newCompany == (if old(newCompany) == "" || old(newCompany) in old(formData.targetCompanies) then old(newCompany) else "")
    {
      if newCompany == "" {
        return;
      }
      if newCompany in formData.targetCompanies {
        return;
      }
      formData := formData.(targetCompanies := CompanyAdded(formData.targetCompanies, newCompany));
      newCompany := "";
    }

    method RemoveCompany(company: string)
      requires Valid()
      modifies this`formData
      ensures Valid()
      ensures formData == old(formData).(targetCompanies := CompanyRemoved(old(formData.targetCompanies), company))
    {
      formData := formData.(targetCompanies := CompanyRemoved(formData.targetCompanies, company));
    }

    method SetResourceDraft(draft: ResourceLink)
      modifies this`newCourseLink
      ensures newCourseLink == draft
    {
      newCourseLink := draft;
    }

    method SetCertificateDraft(draft: CertificateLink)
      modifies this`newCertLink
      ensures newCertLink == draft
    {
      newCertLink := draft;
    }

    /** The extra-link add button: on success the draft is appended and
        reset; otherwise nothing changes. */
    method AddResourceLink() returns (outcome: AddOutcome<seq<ResourceLink>>)
      requires Valid()
      modifies this`formData, this`newCourseLink
      ensures Valid()
      ensures outcome == TryAddResource(old(formData.resourceLinks), old(newCourseLink))
      ensures outcome.Added? ==> formData == old(formData).(resourceLinks := outcome.list) && newCourseLink == EmptyResourceDraft
      ensures !outcome.Added? ==> formData == old(formData) && newCourseLink == old(newCourseLink)
    {
      outcome := TryAddResource(formData.resourceLinks, newCourseLink);
      if outcome.Added? {
        formData := formData.(resourceLinks := outcome.list);
        newCourseLink := EmptyResourceDraft;
      }
    }

    method AddCertificateLink() returns (outcome: AddOutcome<seq<CertificateLink>>)
      requires Valid()
      modifies this`formData, this`newCertLink
      ensures Valid()
      ensures outcome == TryAddCertificate(old(formData.certificateLinks), old(newCertLink))
      ensures outcome.Added? ==> formData == old(formData).(certificateLinks := outcome.list) && newCertLink == EmptyCertificateDraft
      ensures !outcome.Added? ==> formData == old(formData) && newCertLink == old(newCertLink)
    {
      outcome := TryAddCertificate(formData.certificateLinks, newCertLink);
      if outcome.Added? {
        formData := formData.(certificateLinks := outcome.list);
        newCertLink := EmptyCertificateDraft;
      }
    }

    method RemoveResourceLink(i: nat)
      requires Valid()
      modifies this`formData
      ensures Valid()
      ensures formData == old(formData).(resourceLinks := RemoveAt(old(formData.resourceLinks), i))
    {
      formData := formData.(resourceLinks := RemoveAt(formData.resourceLinks, i));
    }

    method RemoveCertificateLink(i: nat)
      requires Valid()
      modifies this`formData
      ensures Valid()
      ensures formData == old(formData).(certificateLinks := RemoveAt(old(formData.certificateLinks), i))
    {
      formData := formData.(certificateLinks := RemoveAt(formData.certificateLinks, i));
    }
  }
}
