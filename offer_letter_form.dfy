/** The controller logic of the offer letter form
    (src/components/OfferLetterForm.tsx): the record and its generic leaf
    update, the required-field validator, the error-clearing key, and the
    submit lifecycle. */
module OfferLetterForm {
  import opened JsString
  import opened Types
  import opened FormCommon

  // ----- the editable leaves -----

  /** The `section` argument an input passes: one of the three sub-records,
      or the top-level `additionalTerms` string. */
  datatype Section = CandidateSection | PositionSection | CompanySection | TermsSection

  /** A `(section, field)` pair that one of the form's inputs passes to
      `handleInputChange`. The additional-terms textarea passes
      `('additionalTerms', 'additionalTerms')`. */
  datatype Leaf =
    | CandidateName | CandidateEmail | CandidateAddress
    | Title | PositionDepartment | PositionStartDate | PositionDuration | Stipend | PositionWorkMode
    | CompanyName | CompanyAddress | ContactPerson | ContactEmail
    | AdditionalTerms

  function SectionOf(l: Leaf): Section {
    match l
    case CandidateName | CandidateEmail | CandidateAddress => CandidateSection
    case Title | PositionDepartment | PositionStartDate | PositionDuration | Stipend | PositionWorkMode =>
      PositionSection
    case CompanyName | CompanyAddress | ContactPerson | ContactEmail => CompanySection
    case AdditionalTerms => TermsSection
  }

  /** The `section` string the input passes. */
  function SectionName(s: Section): string {
    match s
    case CandidateSection => "candidateInfo"
    case PositionSection => "positionDetails"
    case CompanySection => "companyInfo"
    case TermsSection => "additionalTerms"
  }

  /** The `field` string the input passes. */
  function FieldName(l: Leaf): string {
    match l
    case CandidateName => "name"
    case CandidateEmail => "email"
    case CandidateAddress => "address"
    case Title => "title"
    case PositionDepartment => "department"
    case PositionStartDate => "startDate"
    case PositionDuration => "duration"
    case Stipend => "stipend"
    case PositionWorkMode => "workMode"
    case CompanyName => "name"
    case CompanyAddress => "address"
    case ContactPerson => "contactPerson"
    case ContactEmail => "contactEmail"
    case AdditionalTerms => "additionalTerms"
  }

  /** The leaves that live inside one of the three sub-records. */
  predicate InRecord(l: Leaf) {
    l != AdditionalTerms
  }

  /** `formData[section][field]` for a leaf inside a sub-record. */
  function Get(d: OfferLetter, l: Leaf): string
    requires InRecord(l)
  {
    match l
    case CandidateName => d.candidateInfo.name
    case CandidateEmail => d.candidateInfo.email
    case CandidateAddress => d.candidateInfo.address
    case Title => d.positionDetails.title
    case PositionDepartment => d.positionDetails.department
    case PositionStartDate => d.positionDetails.startDate
    case PositionDuration => d.positionDetails.duration
    case Stipend => d.positionDetails.stipend
    case PositionWorkMode => d.positionDetails.workMode
    case CompanyName => d.companyInfo.name
    case CompanyAddress => d.companyInfo.address
    case ContactPerson => d.companyInfo.contactPerson
    case ContactEmail => d.companyInfo.contactEmail
  }

  /** What `{ ...prev.additionalTerms, additionalTerms: v }` builds. Spreading
      the string keeps its characters under their index keys; spreading the
      object a previous edit built keeps those keys. Either way the result is
      an object whose `additionalTerms` key holds `v`. */
  function SpreadTerms(t: Terms, v: string): (r: Terms)
    ensures r.TermsObject? && r.additionalTerms == v
    ensures t.TermsText? ==> r.spread == t.text
    ensures t.TermsObject? ==> r.spread == t.spread
  {
    match t
    case TermsText(s) => TermsObject(s, v)
    case TermsObject(s, _) => TermsObject(s, v)
  }

  /** `{ ...prev, [section]: { ...prev[section], [field]: value } }`. For a
      sub-record leaf the targeted leaf takes the new value and everything else
      is kept; for the additional terms the string is replaced by an object. */
  function SetLeaf(d: OfferLetter, l: Leaf, v: string): (r: OfferLetter)
    ensures InRecord(l) ==> Get(r, l) == v
    ensures forall g :: InRecord(g) && g != l ==> Get(r, g) == Get(d, g)
    ensures r.id == d.id
    ensures SectionOf(l) != CandidateSection ==> r.candidateInfo == d.candidateInfo
    ensures SectionOf(l) != PositionSection ==> r.positionDetails == d.positionDetails
    ensures SectionOf(l) != CompanySection ==> r.companyInfo == d.companyInfo
    ensures l != AdditionalTerms ==> r.additionalTerms == d.additionalTerms
    ensures l == AdditionalTerms ==> r.additionalTerms == SpreadTerms(d.additionalTerms, v)
  {
    match l
    case CandidateName => d.(candidateInfo := d.candidateInfo.(name := v))
    case CandidateEmail => d.(candidateInfo := d.candidateInfo.(email := v))
    case CandidateAddress => d.(candidateInfo := d.candidateInfo.(address := v))
    case Title => d.(positionDetails := d.positionDetails.(title := v))
    case PositionDepartment => d.(positionDetails := d.positionDetails.(department := v))
    case PositionStartDate => d.(positionDetails := d.positionDetails.(startDate := v))
    case PositionDuration => d.(positionDetails := d.positionDetails.(duration := v))
    case Stipend => d.(positionDetails := d.positionDetails.(stipend := v))
    case PositionWorkMode => d.(positionDetails := d.positionDetails.(workMode := v))
    case CompanyName => d.(companyInfo := d.companyInfo.(name := v))
    case CompanyAddress => d.(companyInfo := d.companyInfo.(address := v))
    case ContactPerson => d.(companyInfo := d.companyInfo.(contactPerson := v))
    case ContactEmail => d.(companyInfo := d.companyInfo.(contactEmail := v))
    case AdditionalTerms => d.(additionalTerms := SpreadTerms(d.additionalTerms, v))
  }

  /** Typing into the additional-terms box never stores the typed string
      itself: the slot becomes an object, and from the first keystroke on it
      keeps the characters of the string it started as. */
  lemma TermsEditsBuildObject(d: OfferLetter, v: string, w: string)
    ensures SetLeaf(d, AdditionalTerms, v).additionalTerms != TermsText(v)
    ensures SetLeaf(SetLeaf(d, AdditionalTerms, v), AdditionalTerms, w).additionalTerms
      == SetLeaf(d, AdditionalTerms, w).additionalTerms
    ensures d == InitialOffer ==> SetLeaf(d, AdditionalTerms, v).additionalTerms == TermsObject("", v)
  {
  }

  /** The record the form starts with: every string empty, work mode
      "On-site", additional terms the empty string, no id. */
  const InitialOffer := OfferLetter(
    None,
    CandidateInfo("", "", ""),
    PositionDetails("", "", "", "", "", OnSite.Label()),
    CompanyInfo("", "", "", ""),
    TermsText(""))

  // ----- the required-field validator -----

  /** How `validateForm` tests each leaf. The start date is tested with `!x`,
      the other required leaves with `!x.trim()`; work mode and additional
      terms are not tested. */
  function CheckOf(l: Leaf): Check {
    match l
    case PositionStartDate => Present
    case PositionWorkMode => Unchecked
    case AdditionalTerms => Unchecked
    case _ => NonBlank
  }

  /** The key the validator writes for a tested leaf: a prefix naming the
      section, then the field. */
  function ValidatorKey(l: Leaf): string
    requires CheckOf(l) != Unchecked
  {
    match l
    case CandidateName => "candidateName"
    case CandidateEmail => "candidateEmail"
    case CandidateAddress => "candidateAddress"
    case Title => "positionTitle"
    case PositionDepartment => "positionDepartment"
    case PositionStartDate => "positionStartDate"
    case PositionDuration => "positionDuration"
    case Stipend => "positionStipend"
    case CompanyName => "companyName"
    case CompanyAddress => "companyAddress"
    case ContactPerson => "companyContact"
    case ContactEmail => "companyEmail"
  }

  /** No two tested leaves share a validator key. */
  lemma ValidatorKeyInjective()
    ensures forall l1: Leaf, l2: Leaf ::
      (CheckOf(l1) != Unchecked && CheckOf(l2) != Unchecked && ValidatorKey(l1) == ValidatorKey(l2)) ==> l1 == l2
  {
  }

  /** The message the validator writes for a tested leaf. */
  function Message(l: Leaf): (m: string)
    requires CheckOf(l) != Unchecked
    ensures m != ""
  {
    match l
    case CandidateName => "Candidate name is required"
    case CandidateEmail => "Candidate email is required"
    case CandidateAddress => "Candidate address is required"
    case Title => "Position title is required"
    case PositionDepartment => "Department is required"
    case PositionStartDate => "Start date is required"
    case PositionDuration => "Duration is required"
    case Stipend => "Stipend is required"
    case CompanyName => "Company name is required"
    case CompanyAddress => "Company address is required"
    case ContactPerson => "Contact person is required"
    case ContactEmail => "Contact email is required"
  }

  /** Whether a leaf fails its test. The additional terms are never tested. */
  predicate Fails(d: OfferLetter, l: Leaf) {
    InRecord(l) && Missing(CheckOf(l), Get(d, l))
  }

  /** The leaves `validateForm` tests, in the order of its `if` lines. */
  const ValidatorOrder: seq<Leaf> := [
    CandidateName, CandidateEmail, CandidateAddress,
    Title, PositionDepartment, PositionStartDate, PositionDuration, Stipend,
    CompanyName, CompanyAddress, ContactPerson, ContactEmail
  ]

  /** The keys the lines for `tests` can write. */
  function ValidatorKeys(tests: seq<Leaf>): set<string> {
    set l | l in tests && CheckOf(l) != Unchecked :: ValidatorKey(l)
  }

  /** The entries the `if` lines for `tests` write, run in order from an
      empty map. */
  function ErrorsFrom(d: OfferLetter, tests: seq<Leaf>): ErrorMap
    decreases |tests|
  {
    if tests == [] then map[]
    else
      var earlier := ErrorsFrom(d, tests[..|tests| - 1]);
      var l := tests[|tests| - 1];
      if Fails(d, l) then earlier[ValidatorKey(l) := Message(l)] else earlier
  }

  /** Running the lines for `tests` writes a key exactly for the listed
      leaves whose test fails, carrying the leaf's message, and no other
      key. */
  lemma {:induction false} ErrorsFromMeaning(d: OfferLetter, tests: seq<Leaf>)
    ensures forall l :: CheckOf(l) != Unchecked ==>
      (ValidatorKey(l) in ErrorsFrom(d, tests) <==> l in tests && Fails(d, l))
    ensures forall l :: CheckOf(l) != Unchecked && ValidatorKey(l) in ErrorsFrom(d, tests) ==>
      ErrorsFrom(d, tests)[ValidatorKey(l)] == Message(l)
    ensures ErrorsFrom(d, tests).Keys <= ValidatorKeys(tests)
    decreases |tests|
  {
    if tests != [] {
      ValidatorKeyInjective();
      ErrorsFromMeaning(d, tests[..|tests| - 1]);
      assert ValidatorKeys(tests[..|tests| - 1]) <= ValidatorKeys(tests);
      assert forall l :: l in tests <==> l in tests[..|tests| - 1] || l == tests[|tests| - 1];
    }
  }

  /** One more `if` line run: if `before` is the map the first `i` lines of
      `tests` build and `after` is `before` with line `i` run on it, then
      `after` is the map the first `i + 1` lines build. */
  lemma LineStep(d: OfferLetter, tests: seq<Leaf>, i: nat, before: ErrorMap, after: ErrorMap)
    requires i < |tests|
    requires before == ErrorsFrom(d, tests[..i])
    requires after == if Fails(d, tests[i])
      then before[ValidatorKey(tests[i]) := Message(tests[i])] else before
    ensures after == ErrorsFrom(d, tests[..i + 1])
  {
    assert tests[..i + 1][..i] == tests[..i];
  }

  /** Every leaf with a test has its line in the validator. */
  lemma ValidatorOrderComplete()
    ensures forall l :: CheckOf(l) != Unchecked ==> l in ValidatorOrder
  {
    forall l | CheckOf(l) != Unchecked ensures l in ValidatorOrder {
    }
  }

  /** The map `validateForm` builds. It depends on the record only, never on
      the errors shown before. */
  function ValidationErrors(d: OfferLetter): ErrorMap {
    ErrorsFrom(d, ValidatorOrder)
  }

  /** What the validator reports: its key exactly for the tested leaves whose
      test fails, carrying that leaf's non-empty message, and no other key. */
  lemma ValidationErrorsMeaning(d: OfferLetter)
    ensures forall l :: CheckOf(l) != Unchecked ==> (ValidatorKey(l) in ValidationErrors(d) <==> Fails(d, l))
    ensures forall l :: CheckOf(l) != Unchecked && ValidatorKey(l) in ValidationErrors(d) ==>
      ValidationErrors(d)[ValidatorKey(l)] == Message(l)
    ensures ValidationErrors(d).Keys <= ValidatorKeys(ValidatorOrder)
    ensures forall k :: k in ValidationErrors(d) ==> Shows(ValidationErrors(d), k)
  {
    ValidatorOrderComplete();
    ErrorsFromMeaning(d, ValidatorOrder);
    var e := ValidationErrors(d);
    forall k | k in e ensures Shows(e, k) {
      var l :| l in ValidatorOrder && CheckOf(l) != Unchecked && ValidatorKey(l) == k;
    }
  }

  /** The validator's verdict on one tested leaf; an entry it writes always shows. */
  lemma ErrorFor(d: OfferLetter, l: Leaf)
    requires CheckOf(l) != Unchecked
    ensures ValidatorKey(l) in ValidationErrors(d) <==> Fails(d, l)
    ensures ValidatorKey(l) in ValidationErrors(d) ==> Shows(ValidationErrors(d), ValidatorKey(l))
  {
    ValidationErrorsMeaning(d);
  }

  /** The candidate tests: all three fields fail when blank after trimming. */
  lemma CandidateTests(d: OfferLetter)
    ensures "candidateName" in ValidationErrors(d) <==> Trim(d.candidateInfo.name) == ""
    ensures "candidateEmail" in ValidationErrors(d) <==> Trim(d.candidateInfo.email) == ""
    ensures "candidateAddress" in ValidationErrors(d) <==> Trim(d.candidateInfo.address) == ""
  {
    assert "candidateName" in ValidationErrors(d) <==> Trim(d.candidateInfo.name) == "" by {
      ErrorFor(d, CandidateName);
      assert ValidatorKey(CandidateName) == "candidateName";
    }
    assert "candidateEmail" in ValidationErrors(d) <==> Trim(d.candidateInfo.email) == "" by {
      ErrorFor(d, CandidateEmail);
      assert ValidatorKey(CandidateEmail) == "candidateEmail";
    }
    assert "candidateAddress" in ValidationErrors(d) <==> Trim(d.candidateInfo.address) == "" by {
      ErrorFor(d, CandidateAddress);
      assert ValidatorKey(CandidateAddress) == "candidateAddress";
    }
  }

  /** The position tests on text fields: all four fail when blank after
      trimming. */
  lemma PositionTests(d: OfferLetter)
    ensures "positionTitle" in ValidationErrors(d) <==> Trim(d.positionDetails.title) == ""
    ensures "positionDepartment" in ValidationErrors(d) <==> Trim(d.positionDetails.department) == ""
    ensures "positionDuration" in ValidationErrors(d) <==> Trim(d.positionDetails.duration) == ""
    ensures "positionStipend" in ValidationErrors(d) <==> Trim(d.positionDetails.stipend) == ""
  {
    assert "positionTitle" in ValidationErrors(d) <==> Trim(d.positionDetails.title) == "" by {
      ErrorFor(d, Title);
      assert ValidatorKey(Title) == "positionTitle";
    }
    assert "positionDepartment" in ValidationErrors(d) <==> Trim(d.positionDetails.department) == "" by {
      ErrorFor(d, PositionDepartment);
      assert ValidatorKey(PositionDepartment) == "positionDepartment";
    }
    assert "positionDuration" in ValidationErrors(d) <==> Trim(d.positionDetails.duration) == "" by {
      ErrorFor(d, PositionDuration);
      assert ValidatorKey(PositionDuration) == "positionDuration";
    }
    assert "positionStipend" in ValidationErrors(d) <==> Trim(d.positionDetails.stipend) == "" by {
      ErrorFor(d, Stipend);
      assert ValidatorKey(Stipend) == "positionStipend";
    }
  }

  /** The start date fails only when empty: it is not trimmed. */
  lemma StartDateTest(d: OfferLetter)
    ensures "positionStartDate" in ValidationErrors(d) <==> d.positionDetails.startDate == ""
  {
    ErrorFor(d, PositionStartDate);
    assert ValidatorKey(PositionStartDate) == "positionStartDate";
  }

  /** The company tests: all four fields fail when blank after trimming. */
  lemma CompanyTests(d: OfferLetter)
    ensures "companyName" in ValidationErrors(d) <==> Trim(d.companyInfo.name) == ""
    ensures "companyAddress" in ValidationErrors(d) <==> Trim(d.companyInfo.address) == ""
    ensures "companyContact" in ValidationErrors(d) <==> Trim(d.companyInfo.contactPerson) == ""
    ensures "companyEmail" in ValidationErrors(d) <==> Trim(d.companyInfo.contactEmail) == ""
  {
    assert "companyName" in ValidationErrors(d) <==> Trim(d.companyInfo.name) == "" by {
      ErrorFor(d, CompanyName);
      assert ValidatorKey(CompanyName) == "companyName";
    }
    assert "companyAddress" in ValidationErrors(d) <==> Trim(d.companyInfo.address) == "" by {
      ErrorFor(d, CompanyAddress);
      assert ValidatorKey(CompanyAddress) == "companyAddress";
    }
    assert "companyContact" in ValidationErrors(d) <==> Trim(d.companyInfo.contactPerson) == "" by {
      ErrorFor(d, ContactPerson);
      assert ValidatorKey(ContactPerson) == "companyContact";
    }
    assert "companyEmail" in ValidationErrors(d) <==> Trim(d.companyInfo.contactEmail) == "" by {
      ErrorFor(d, ContactEmail);
      assert ValidatorKey(ContactEmail) == "companyEmail";
    }
  }

  /** A start date made only of blanks passes, while the same text as the
      position title fails. */
  lemma BlankStartDatePasses(d: OfferLetter, s: string)
    requires s != "" && AllTrimmable(s)
    ensures "positionStartDate" !in ValidationErrors(SetLeaf(d, PositionStartDate, s))
    ensures "positionTitle" in ValidationErrors(SetLeaf(d, Title, s))
  {
    TrimEmptyIff(s);
    ErrorFor(SetLeaf(d, PositionStartDate, s), PositionStartDate);
    ErrorFor(SetLeaf(d, Title, s), Title);
  }

  /** Two records that agree on every tested leaf get the same errors. */
  lemma SameTestedLeavesSameErrors(d1: OfferLetter, d2: OfferLetter)
    requires forall g :: CheckOf(g) != Unchecked ==> Get(d1, g) == Get(d2, g)
    ensures ValidationErrors(d1) == ValidationErrors(d2)
  {
    ValidationErrorsMeaning(d1);
    ValidationErrorsMeaning(d2);
    var e1, e2 := ValidationErrors(d1), ValidationErrors(d2);
    forall k | k in e1 ensures k in e2 && e1[k] == e2[k] {
      var l :| l in ValidatorOrder && CheckOf(l) != Unchecked && ValidatorKey(l) == k;
    }
    forall k | k in e2 ensures k in e1 {
      var l :| l in ValidatorOrder && CheckOf(l) != Unchecked && ValidatorKey(l) == k;
    }
  }

  /** The work mode and the additional terms never affect validation. */
  lemma UncheckedLeafIgnored(d: OfferLetter, l: Leaf, v: string)
    requires CheckOf(l) == Unchecked
    ensures ValidationErrors(SetLeaf(d, l, v)) == ValidationErrors(d)
  {
    SameTestedLeavesSameErrors(SetLeaf(d, l, v), d);
  }

  /** `validateForm` returns true exactly when no tested leaf fails. */
  lemma ValidIffComplete(d: OfferLetter)
    ensures ValidationErrors(d) == map[] <==> forall l :: !Fails(d, l)
  {
    ValidationErrorsMeaning(d);
    if !(ValidationErrors(d) == map[]) {
      var k :| k in ValidationErrors(d);
      var l :| l in ValidatorOrder && CheckOf(l) != Unchecked && ValidatorKey(l) == k;
    }
  }

  /** The freshly opened form fails every test: every tested field shows
      its message. */
  lemma InitialFormFailsEveryTest()
    ensures forall l :: CheckOf(l) != Unchecked ==> Shows(ValidationErrors(InitialOffer), ValidatorKey(l))
  {
    forall l | CheckOf(l) != Unchecked ensures Shows(ValidationErrors(InitialOffer), ValidatorKey(l)) {
      ErrorFor(InitialOffer, l);
      assert Get(InitialOffer, l) == "" && Trim("") == "";
    }
  }


  // ----- the error-clearing key -----

  /** `${section}${field.charAt(0).toUpperCase()}${field.slice(1)}`, the key
      `handleInputChange` tries to clear. It begins with its section's name,
      followed by as many characters as the field name has. */
  function ErrorKey(l: Leaf): (k: string)
    ensures SectionName(SectionOf(l)) <= k
    ensures |k| == |SectionName(SectionOf(l))| + |FieldName(l)|
  {
    SectionName(SectionOf(l)) + Capitalize(FieldName(l))
  }

  /** No validator key begins with a section name. */
  lemma ValidatorKeyLacksSectionPrefix(l: Leaf, s: Section)
    requires CheckOf(l) != Unchecked
    ensures !(SectionName(s) <= ValidatorKey(l))
  {
    var k, p := ValidatorKey(l), SectionName(s);
    if |p| <= |k| {
      match s
      case CandidateSection => assert k[9] != p[9];
      case PositionSection => assert k[10] != p[10];
      case CompanySection => assert k[7] != p[7];
      case TermsSection => assert k[0] != p[0];
    }
  }

  /** The clearing key never equals a key the validator writes. */
  lemma ErrorKeyNeverValidated(l: Leaf, g: Leaf)
    requires CheckOf(g) != Unchecked
    ensures ErrorKey(l) != ValidatorKey(g)
  {
    ValidatorKeyLacksSectionPrefix(g, SectionOf(l));
  }

  /** So, on any error map the validator can have produced, the clearing
      step of `handleInputChange` changes nothing. */
  lemma ClearingNeverApplies(errors: ErrorMap, l: Leaf)
    requires errors.Keys <= ValidatorKeys(ValidatorOrder)
    ensures ClearError(errors, ErrorKey(l)) == errors
  {
    if ErrorKey(l) in errors {
      var g :| g in ValidatorOrder && CheckOf(g) != Unchecked && ValidatorKey(g) == ErrorKey(l);
      ErrorKeyNeverValidated(l, g);
    }
  }

  // ----- the component state -----

  /** The state of one mounted offer letter form. `scheduledReturns` counts
      the `setTimeout(onBack, 2000)` callbacks scheduled and not yet run. */
  class Form {
    var formData: OfferLetter
    var errors: ErrorMap
    var toast: Toast
    var isLoading: bool
    var scheduledReturns: nat

    /** Every key in `errors` is one the validator writes. */
    ghost predicate Valid()
      reads this
    {
      errors.Keys <= ValidatorKeys(ValidatorOrder)
    }

    constructor ()
      ensures Valid()
      ensures formData == InitialOffer && errors == map[] && toast == InitialToast
      ensures !isLoading && scheduledReturns == 0
    {
      formData := InitialOffer;
      errors := map[];
      toast := InitialToast;
      isLoading := false;
      scheduledReturns := 0;
    }

    /** `validateForm`: runs the `if` lines in order on a fresh map, stores
        it in `errors` and reports whether it came out empty. */
    method ValidateForm() returns (ok: bool)
      modifies this`errors
      ensures Valid()
      ensures errors == ValidationErrors(formData)
      ensures ok <==> errors == map[]
      ensures ok <==> forall l :: !Fails(formData, l)
    {
      var newErrors: ErrorMap := map[];
      var i := 0;
      while i < |ValidatorOrder|
        invariant i <= |ValidatorOrder|
        invariant newErrors == ErrorsFrom(formData, ValidatorOrder[..i])
      {
        var l := ValidatorOrder[i];
        ghost var before := newErrors;
        if InRecord(l) && Missing(CheckOf(l), Get(formData, l)) {
          newErrors := newErrors[ValidatorKey(l) := Message(l)];
        }
        LineStep(formData, ValidatorOrder, i, before, newErrors);
        i := i + 1;
      }
      assert ValidatorOrder[..i] == ValidatorOrder;
      ValidationErrorsMeaning(formData);
      ValidIffComplete(formData);
      errors := newErrors;
      ok := |newErrors| == 0;
    }

    /** `handleInputChange(section, field, value)`: the generic update, then
        the clearing step on the derived key, which never matches. */
    method HandleInputChange(leaf: Leaf, value: string)
      requires Valid()
      modifies this`formData, this`errors
      ensures Valid()
      ensures formData == SetLeaf(old(formData), leaf, value)
      ensures errors == ClearError(old(errors), ErrorKey(leaf))
      ensures errors == old(errors)
    {
      formData := SetLeaf(formData, leaf, value);
      var errorKey := SectionName(SectionOf(leaf)) + Capitalize(FieldName(leaf));
      if errorKey in errors && errors[errorKey] != "" {
        errors := errors[errorKey := ""];
      }
      ClearingNeverApplies(old(errors), leaf);
    }

    /** `handleSubmit`, with the gateway's settled result given as `outcome`.
        `request` is the record handed to the gateway (None: no call was
        made); `loadingAtCall` is `isLoading` at the moment of the call. */
    method HandleSubmit(outcome: GatewayOutcome<OfferLetter>)
      returns (request: Option<OfferLetter>, loadingAtCall: bool)
      modifies this`errors, this`toast, this`isLoading, this`scheduledReturns
      ensures Valid()
      ensures formData == old(formData)
      ensures errors == ValidationErrors(formData)
      ensures errors != map[] ==>
                && request == None && toast == ValidationFailedToast
                && isLoading == old(isLoading) && scheduledReturns == old(scheduledReturns)
      ensures errors == map[] ==>
                && request == Some(formData) && loadingAtCall && !isLoading
                && toast == OutcomeToast(outcome)
                && scheduledReturns == old(scheduledReturns) + if Succeeded(outcome) then 1 else 0
    {
      var valid := ValidateForm();
      if !valid {
        toast := Toast(true, ValidationFailedMessage, ErrorToast);
        return None, false;
      }
      isLoading := true;
      request := Some(formData);
      loadingAtCall := isLoading;
      match outcome {
        case Responded(response) =>
          if response.success {
            toast := Toast(true, response.message, SuccessToast);
            scheduledReturns := scheduledReturns + 1;
          } else {
            toast := Toast(true, response.message, ErrorToast);
          }
        case Threw =>
          toast := Toast(true, UnexpectedErrorMessage, ErrorToast);
      }
      isLoading := false;
    }

    /** The toast's `onClose`. */
    method CloseToast()
      requires Valid()
      modifies this`toast
      ensures Valid()
      ensures toast == Closed(old(toast))
    {
      toast := toast.(isVisible := false);
    }

    /** One scheduled `setTimeout(() => onBack(), 2000)` callback runs; the
        caller then runs `onBack`. */
    method RunScheduledReturn()
      requires Valid() && scheduledReturns > 0
      modifies this`scheduledReturns
      ensures Valid()
      ensures scheduledReturns == old(scheduledReturns) - 1
    {
      scheduledReturns := scheduledReturns - 1;
    }
  }
}
