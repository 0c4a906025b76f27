/** The controller logic of the internship application form
    (src/components/InternshipApplicationForm.tsx): the record and its generic
    leaf update, the required-field validator, the skill tags, and the submit
    lifecycle. */
module InternshipApplicationForm {
  import opened JsString
  import opened Types
  import opened FormCommon

  // ----- the editable leaves -----

  /** The four sections of the record. */
  datatype Section = PersonalSection | AcademicSection | InternshipSection | AdditionalSection

  /** A `(section, field)` pair that one of the form's inputs passes to
      `handleInputChange`: every string leaf of the record. */
  datatype Leaf =
    | FirstName | LastName | Email | Phone | DateOfBirth | Address
    | University | Degree | Major | GraduationDate | Gpa
    | Position | Department | StartDate | Duration | WorkModeField
    | CoverLetter | PreviousExperience

  function SectionOf(l: Leaf): Section {
    match l
    case FirstName | LastName | Email | Phone | DateOfBirth | Address => PersonalSection
    case University | Degree | Major | GraduationDate | Gpa => AcademicSection
    case Position | Department | StartDate | Duration | WorkModeField => InternshipSection
    case CoverLetter | PreviousExperience => AdditionalSection
  }

  /** The `field` string the input passes; it is also the key the form uses in
      `errors`. */
  function FieldName(l: Leaf): string {
    match l
    case FirstName => "firstName"
    case LastName => "lastName"
    case Email => "email"
    case Phone => "phone"
    case DateOfBirth => "dateOfBirth"
    case Address => "address"
    case University => "university"
    case Degree => "degree"
    case Major => "major"
    case GraduationDate => "graduationDate"
    case Gpa => "gpa"
    case Position => "position"
    case Department => "department"
    case StartDate => "startDate"
    case Duration => "duration"
    case WorkModeField => "workMode"
    case CoverLetter => "coverLetter"
    case PreviousExperience => "previousExperience"
  }

  /** No two leaves share a field name. */
  lemma FieldNameInjective()
    ensures forall l1: Leaf, l2: Leaf :: FieldName(l1) == FieldName(l2) ==> l1 == l2
  {
  }

  /** `formData[section][field]` for a string leaf. */
  function Get(d: InternshipApplication, l: Leaf): string {
    match l
    case FirstName => d.personalInfo.firstName
    case LastName => d.personalInfo.lastName
    case Email => d.personalInfo.email
    case Phone => d.personalInfo.phone
    case DateOfBirth => d.personalInfo.dateOfBirth
    case Address => d.personalInfo.address
    case University => d.academicInfo.university
    case Degree => d.academicInfo.degree
    case Major => d.academicInfo.major
    case GraduationDate => d.academicInfo.graduationDate
    case Gpa => d.academicInfo.gpa
    case Position => d.internshipInfo.position
    case Department => d.internshipInfo.department
    case StartDate => d.internshipInfo.startDate
    case Duration => d.internshipInfo.duration
    case WorkModeField => d.internshipInfo.workMode
    case CoverLetter => d.additionalInfo.coverLetter
    case PreviousExperience => d.additionalInfo.previousExperience
  }

  /** `{ ...prev, [section]: { ...prev[section], [field]: value } }`: the
      targeted leaf takes the new value; every other leaf, the skill list, the
      id and every other section are as they were. */
  function SetLeaf(d: InternshipApplication, l: Leaf, v: string): (r: InternshipApplication)
    ensures Get(r, l) == v
    ensures forall g :: g != l ==> Get(r, g) == Get(d, g)
    ensures r.id == d.id && r.additionalInfo.skills == d.additionalInfo.skills
    ensures SectionOf(l) != PersonalSection ==> r.personalInfo == d.personalInfo
    ensures SectionOf(l) != AcademicSection ==> r.academicInfo == d.academicInfo
    ensures SectionOf(l) != InternshipSection ==> r.internshipInfo == d.internshipInfo
    ensures SectionOf(l) != AdditionalSection ==> r.additionalInfo == d.additionalInfo
  {
    match l
    case FirstName => d.(personalInfo := d.personalInfo.(firstName := v))
    case LastName => d.(personalInfo := d.personalInfo.(lastName := v))
    case Email => d.(personalInfo := d.personalInfo.(email := v))
    case Phone => d.(personalInfo := d.personalInfo.(phone := v))
    case DateOfBirth => d.(personalInfo := d.personalInfo.(dateOfBirth := v))
    case Address => d.(personalInfo := d.personalInfo.(address := v))
    case University => d.(academicInfo := d.academicInfo.(university := v))
    case Degree => d.(academicInfo := d.academicInfo.(degree := v))
    case Major => d.(academicInfo := d.academicInfo.(major := v))
    case GraduationDate => d.(academicInfo := d.academicInfo.(graduationDate := v))
    case Gpa => d.(academicInfo := d.academicInfo.(gpa := v))
    case Position => d.(internshipInfo := d.internshipInfo.(position := v))
    case Department => d.(internshipInfo := d.internshipInfo.(department := v))
    case StartDate => d.(internshipInfo := d.internshipInfo.(startDate := v))
    case Duration => d.(internshipInfo := d.internshipInfo.(duration := v))
    case WorkModeField => d.(internshipInfo := d.internshipInfo.(workMode := v))
    case CoverLetter => d.(additionalInfo := d.additionalInfo.(coverLetter := v))
    case PreviousExperience => d.(additionalInfo := d.additionalInfo.(previousExperience := v))
  }

  /** The record the form starts with: every string empty, work mode
      "On-site", no skills, no id. */
  const InitialApplication := InternshipApplication(
    None,
    PersonalInfo("", "", "", "", "", ""),
    AcademicInfo("", "", "", "", ""),
    InternshipInfo("", "", "", "", OnSite.Label()),
    AdditionalInfo("", [], ""))

  // ----- the required-field validator -----

  /** How `validateForm` tests each leaf. The three dates are tested with `!x`,
      the other required leaves with `!x.trim()`; address, GPA, work mode and
      previous experience are not tested, although the Address and Work Mode
      labels carry the required marker. */
  function CheckOf(l: Leaf): Check {
    match l
    case DateOfBirth => Present
    case Address => Unchecked
    case GraduationDate => Present
    case Gpa => Unchecked
    case StartDate => Present
    case WorkModeField => Unchecked
    case PreviousExperience => Unchecked
    case _ => NonBlank
  }

  function Message(l: Leaf): (m: string)
    requires CheckOf(l) != Unchecked
    ensures m != ""
  {
    match l
    case FirstName => "First name is required"
    case LastName => "Last name is required"
    case Email => "Email is required"
    case Phone => "Phone is required"
    case DateOfBirth => "Date of birth is required"
    case University => "University is required"
    case Degree => "Degree is required"
    case Major => "Major is required"
    case GraduationDate => "Graduation date is required"
    case Position => "Position is required"
    case Department => "Department is required"
    case StartDate => "Start date is required"
    case Duration => "Duration is required"
    case CoverLetter => "Cover letter is required"
  }

  /** The leaves `validateForm` tests, in the order of its `if` lines. */
  const ValidatorOrder: seq<Leaf> := [
    FirstName, LastName, Email, Phone, DateOfBirth,
    University, Degree, Major, GraduationDate,
    Position, Department, StartDate, Duration,
    CoverLetter
  ]

  /** The field names of the listed leaves. */
  function FieldNames(tests: seq<Leaf>): set<string> {
    set l | l in tests :: FieldName(l)
  }

  /** The entries the `if` lines for `tests` write, run in order from an
      empty map. */
  function ErrorsFrom(d: InternshipApplication, tests: seq<Leaf>): ErrorMap
    decreases |tests|
  {
    if tests == [] then map[]
    else
      var earlier := ErrorsFrom(d, tests[..|tests| - 1]);
      var l := tests[|tests| - 1];
      if Missing(CheckOf(l), Get(d, l)) then earlier[FieldName(l) := Message(l)] else earlier
  }

  /** Running the lines for `tests` writes a key exactly for the listed
      leaves whose test fails, named by the leaf's field name and carrying
      the leaf's message, and no other key. */
  lemma {:induction false} ErrorsFromMeaning(d: InternshipApplication, tests: seq<Leaf>)
    ensures forall l :: FieldName(l) in ErrorsFrom(d, tests) <==> l in tests && Missing(CheckOf(l), Get(d, l))
    ensures forall l :: FieldName(l) in ErrorsFrom(d, tests) ==>
      CheckOf(l) != Unchecked && ErrorsFrom(d, tests)[FieldName(l)] == Message(l)
    ensures ErrorsFrom(d, tests).Keys <= FieldNames(tests)
    decreases |tests|
  {
    if tests != [] {
      FieldNameInjective();
      ErrorsFromMeaning(d, tests[..|tests| - 1]);
      assert FieldNames(tests[..|tests| - 1]) <= FieldNames(tests);
      assert forall l :: l in tests <==> l in tests[..|tests| - 1] || l == tests[|tests| - 1];
    }
  }

  /** One more `if` line run: if `before` is the map the first `i` lines of
      `tests` build and `after` is `before` with line `i` run on it, then
      `after` is the map the first `i + 1` lines build. */
  lemma LineStep(d: InternshipApplication, tests: seq<Leaf>, i: nat, before: ErrorMap, after: ErrorMap)
    requires i < |tests|
    requires before == ErrorsFrom(d, tests[..i])
    requires after == if Missing(CheckOf(tests[i]), Get(d, tests[i]))
      then before[FieldName(tests[i]) := Message(tests[i])] else before
    ensures after == ErrorsFrom(d, tests[..i + 1])
  {
    assert tests[..i + 1][..i] == tests[..i];
  }

  /** Every leaf with a test has its line in the validator. */
  lemma ValidatorOrderComplete()
    ensures forall l :: CheckOf(l) != Unchecked ==> l in ValidatorOrder
  {
    forall l | CheckOf(l) != Unchecked ensures l in ValidatorOrder {
    }
  }

  /** The map `validateForm` builds. It depends on the record only, never on
      the errors shown before. */
  function ValidationErrors(d: InternshipApplication): ErrorMap {
    ErrorsFrom(d, ValidatorOrder)
  }

  /** What the validator reports: a key exactly for the tested leaves whose
      test fails, named by the field and carrying that field's non-empty
      message, and no other key. */
  lemma ValidationErrorsMeaning(d: InternshipApplication)
    ensures forall l :: FieldName(l) in ValidationErrors(d) <==> Missing(CheckOf(l), Get(d, l))
    ensures forall l :: FieldName(l) in ValidationErrors(d) ==>
      CheckOf(l) != Unchecked && ValidationErrors(d)[FieldName(l)] == Message(l)
    ensures ValidationErrors(d).Keys <= FieldNames(ValidatorOrder)
    ensures forall k :: k in ValidationErrors(d) ==> Shows(ValidationErrors(d), k)
  {
    ValidatorOrderComplete();
    ErrorsFromMeaning(d, ValidatorOrder);
    var e := ValidationErrors(d);
    forall k | k in e ensures Shows(e, k) {
      var l :| l in ValidatorOrder && FieldName(l) == k;
    }
  }

  /** The validator's verdict on one leaf; an entry it writes always shows. */
  lemma ErrorFor(d: InternshipApplication, l: Leaf)
    ensures FieldName(l) in ValidationErrors(d) <==> Missing(CheckOf(l), Get(d, l))
    ensures FieldName(l) in ValidationErrors(d) ==> Shows(ValidationErrors(d), FieldName(l))
  {
    ValidationErrorsMeaning(d);
  }

  /** The personal-information tests: four fields fail when blank after
      trimming, the date of birth only when empty, the address never. */
  lemma PersonalTests(d: InternshipApplication)
    ensures "firstName" in ValidationErrors(d) <==> Trim(d.personalInfo.firstName) == ""
    ensures "lastName" in ValidationErrors(d) <==> Trim(d.personalInfo.lastName) == ""
    ensures "email" in ValidationErrors(d) <==> Trim(d.personalInfo.email) == ""
    ensures "phone" in ValidationErrors(d) <==> Trim(d.personalInfo.phone) == ""
    ensures "dateOfBirth" in ValidationErrors(d) <==> d.personalInfo.dateOfBirth == ""
    ensures "address" !in ValidationErrors(d)
  {
    ErrorFor(d, FirstName);
    ErrorFor(d, LastName);
    ErrorFor(d, Email);
    ErrorFor(d, Phone);
    ErrorFor(d, DateOfBirth);
    ErrorFor(d, Address);
  }

  /** The academic tests: three fields fail when blank after trimming, the
      graduation date only when empty, the GPA never. */
  lemma AcademicTests(d: InternshipApplication)
    ensures "university" in ValidationErrors(d) <==> Trim(d.academicInfo.university) == ""
    ensures "degree" in ValidationErrors(d) <==> Trim(d.academicInfo.degree) == ""
    ensures "major" in ValidationErrors(d) <==> Trim(d.academicInfo.major) == ""
    ensures "graduationDate" in ValidationErrors(d) <==> d.academicInfo.graduationDate == ""
    ensures "gpa" !in ValidationErrors(d)
  {
    ErrorFor(d, University);
    ErrorFor(d, Degree);
    ErrorFor(d, Major);
    ErrorFor(d, GraduationDate);
    ErrorFor(d, Gpa);
  }

  /** The internship tests: position, department and duration fail when
      blank after trimming, the start date only when empty, the work mode
      never. */
  lemma InternshipTests(d: InternshipApplication)
    ensures "position" in ValidationErrors(d) <==> Trim(d.internshipInfo.position) == ""
    ensures "department" in ValidationErrors(d) <==> Trim(d.internshipInfo.department) == ""
    ensures "startDate" in ValidationErrors(d) <==> d.internshipInfo.startDate == ""
    ensures "duration" in ValidationErrors(d) <==> Trim(d.internshipInfo.duration) == ""
    ensures "workMode" !in ValidationErrors(d)
  {
    ErrorFor(d, Position);
    ErrorFor(d, Department);
    ErrorFor(d, StartDate);
    ErrorFor(d, Duration);
    ErrorFor(d, WorkModeField);
  }

  /** The additional tests: the cover letter fails when blank after
      trimming, previous experience and the skill list are never tested. */
  lemma AdditionalTests(d: InternshipApplication)
    ensures "coverLetter" in ValidationErrors(d) <==> Trim(d.additionalInfo.coverLetter) == ""
    ensures "previousExperience" !in ValidationErrors(d)
  {
    ErrorFor(d, CoverLetter);
    ErrorFor(d, PreviousExperience);
  }

  /** A date made only of blanks passes, while the same text in a trimmed
      field fails. */
  lemma BlankDatePassesBlankNameFails(d: InternshipApplication, s: string)
    requires s != "" && AllTrimmable(s)
    ensures "dateOfBirth" !in ValidationErrors(SetLeaf(d, DateOfBirth, s))
    ensures "graduationDate" !in ValidationErrors(SetLeaf(d, GraduationDate, s))
    ensures "startDate" !in ValidationErrors(SetLeaf(d, StartDate, s))
    ensures "firstName" in ValidationErrors(SetLeaf(d, FirstName, s))
  {
    TrimEmptyIff(s);
    ErrorFor(SetLeaf(d, DateOfBirth, s), DateOfBirth);
    ErrorFor(SetLeaf(d, GraduationDate, s), GraduationDate);
    ErrorFor(SetLeaf(d, StartDate, s), StartDate);
    ErrorFor(SetLeaf(d, FirstName, s), FirstName);
  }

  /** Two records that agree on every tested leaf get the same errors. */
  lemma SameTestedLeavesSameErrors(d1: InternshipApplication, d2: InternshipApplication)
    requires forall g :: CheckOf(g) != Unchecked ==> Get(d1, g) == Get(d2, g)
    ensures ValidationErrors(d1) == ValidationErrors(d2)
  {
    ValidationErrorsMeaning(d1);
    ValidationErrorsMeaning(d2);
    var e1, e2 := ValidationErrors(d1), ValidationErrors(d2);
    forall k | k in e1 ensures k in e2 && e1[k] == e2[k] {
      var l :| l in ValidatorOrder && FieldName(l) == k;
    }
    forall k | k in e2 ensures k in e1 {
      var l :| l in ValidatorOrder && FieldName(l) == k;
    }
  }

  /** Editing an untested leaf (address, GPA, work mode, previous
      experience) never changes what the validator reports. */
  lemma UncheckedLeafIgnored(d: InternshipApplication, l: Leaf, v: string)
    requires CheckOf(l) == Unchecked
    ensures ValidationErrors(SetLeaf(d, l, v)) == ValidationErrors(d)
  {
    SameTestedLeavesSameErrors(SetLeaf(d, l, v), d);
  }

  /** Neither does the skill list. */
  lemma SkillsIgnored(d: InternshipApplication, skills: seq<string>)
    ensures ValidationErrors(d.(additionalInfo := d.additionalInfo.(skills := skills))) == ValidationErrors(d)
  {
    SameTestedLeavesSameErrors(d.(additionalInfo := d.additionalInfo.(skills := skills)), d);
  }

  /** `validateForm` returns true exactly when no tested leaf fails. */
  lemma ValidIffComplete(d: InternshipApplication)
    ensures ValidationErrors(d) == map[] <==> forall l :: !Missing(CheckOf(l), Get(d, l))
  {
    ValidationErrorsMeaning(d);
    if !(ValidationErrors(d) == map[]) {
      var k :| k in ValidationErrors(d);
      var l :| l in ValidatorOrder && FieldName(l) == k;
    }
  }

  /** The freshly opened form fails every test: every tested field shows
      its message. */
  lemma InitialFormFailsEveryTest()
    ensures forall l :: CheckOf(l) != Unchecked ==> Shows(ValidationErrors(InitialApplication), FieldName(l))
  {
    forall l | CheckOf(l) != Unchecked ensures Shows(ValidationErrors(InitialApplication), FieldName(l)) {
      ErrorFor(InitialApplication, l);
      assert Get(InitialApplication, l) == "" && Trim("") == "";
    }
  }


  // ----- skill tags -----

  predicate NoDuplicates(s: seq<string>) {
    forall i, j :: 0 <= i < j < |s| ==> s[i] != s[j]
  }

  /** The shape the skill list keeps: no repeats, no empty entry, every entry
      already trimmed. */
  predicate WellFormedSkills(s: seq<string>) {
    && NoDuplicates(s)
    && forall i :: 0 <= i < |s| ==> s[i] != "" && IsTrimmed(s[i])
  }

  /** The guard of `addSkill`. */
  predicate Accepts(skills: seq<string>, input: string) {
    Trim(input) != "" && Trim(input) !in skills
  }

  /** The skill list after `addSkill` with the given input box contents. */
  function AddSkillTo(skills: seq<string>, input: string): (r: seq<string>)
    ensures skills <= r && |r| <= |skills| + 1
    ensures forall x :: x in r <==> x in skills || (x == Trim(input) && x != "")
    ensures r != skills <==> Accepts(skills, input)
  {
    if Accepts(skills, input) then skills + [Trim(input)] else skills
  }

  /** Adding preserves the shape of the list. */
  lemma AddSkillKeepsWellFormed(skills: seq<string>, input: string)
    requires WellFormedSkills(skills)
    ensures WellFormedSkills(AddSkillTo(skills, input))
  {
    TrimIsTrimmed(input);
  }

  /** Pressing "Add" twice with the same text adds it once. */
  lemma AddSkillIdempotent(skills: seq<string>, input: string)
    ensures AddSkillTo(AddSkillTo(skills, input), input) == AddSkillTo(skills, input)
  {
  }

  /** Greedy subsequence test: `a` can be obtained from `b` by deleting
      elements, keeping the order of the rest. */
  predicate IsSubsequence(a: seq<string>, b: seq<string>)
    decreases |b|
  {
    a == [] || (b != [] && if a[0] == b[0] then IsSubsequence(a[1..], b[1..]) else IsSubsequence(a, b[1..]))
  }

  /** `skills.filter(skill => skill !== target)`: every copy of `target`
      removed, the rest kept in their order. */
  function RemoveSkillFrom(skills: seq<string>, target: string): (r: seq<string>)
    ensures multiset(r) == multiset(skills)[target := 0]
    ensures IsSubsequence(r, skills)
  {
    if skills == [] then []
    else
      assert skills == [skills[0]] + skills[1..];
      if skills[0] == target then RemoveSkillFrom(skills[1..], target)
    else [skills[0]] + RemoveSkillFrom(skills[1..], target)
  }

  /** Removing a value that is not in the list leaves it unchanged. */
  lemma {:induction false} RemoveAbsent(skills: seq<string>, target: string)
    requires target !in skills
    ensures RemoveSkillFrom(skills, target) == skills
  {
    if skills != [] {
      RemoveAbsent(skills[1..], target);
    }
  }

  /** A list without repeats keeps that shape past its head, and its head
      does not recur. */
  lemma TailNoDuplicates(s: seq<string>)
    requires NoDuplicates(s) && s != []
    ensures NoDuplicates(s[1..]) && s[0] !in s[1..]
  {
    forall i, j | 0 <= i < j < |s| - 1 ensures s[1..][i] != s[1..][j] {
      assert s[1..][i] == s[i + 1] && s[1..][j] == s[j + 1];
    }
  }

  /** In a list without repeats, removing an entry deletes exactly its one
      position. */
  lemma {:induction false} RemoveFromDistinct(skills: seq<string>, i: nat)
    requires NoDuplicates(skills) && i < |skills|
    ensures RemoveSkillFrom(skills, skills[i]) == skills[..i] + skills[i + 1..]
  {
    TailNoDuplicates(skills);
    if i == 0 {
      RemoveAbsent(skills[1..], skills[0]);
    } else {
      RemoveFromDistinct(skills[1..], i - 1);
      assert skills[1..][i - 1] == skills[i];
      assert skills[1..][..i - 1] + skills[1..][i..] == skills[1..i] + skills[i + 1..];
      assert skills[..i] == [skills[0]] + skills[1..i];
    }
  }

  /** Deleting one position keeps the shape of the list. */
  lemma DropKeepsWellFormed(skills: seq<string>, i: nat)
    requires WellFormedSkills(skills) && i < |skills|
    ensures WellFormedSkills(skills[..i] + skills[i + 1..])
  {
    var r := skills[..i] + skills[i + 1..];
    forall a | 0 <= a < |r| ensures r[a] == skills[if a < i then a else a + 1] {
    }
  }

  /** Removing preserves the shape of the list. */
  lemma RemoveSkillKeepsWellFormed(skills: seq<string>, target: string)
    requires WellFormedSkills(skills)
    ensures WellFormedSkills(RemoveSkillFrom(skills, target))
  {
    if target in skills {
      var i :| 0 <= i < |skills| && skills[i] == target;
      RemoveFromDistinct(skills, i);
      DropKeepsWellFormed(skills, i);
    } else {
      RemoveAbsent(skills, target);
    }
  }

  /** Removing a skill just added gives back the list before the add. */
  lemma RemoveUndoesAdd(skills: seq<string>, input: string)
    requires WellFormedSkills(skills) && Accepts(skills, input)
    ensures RemoveSkillFrom(AddSkillTo(skills, input), Trim(input)) == skills
  {
    var r := skills + [Trim(input)];
    assert NoDuplicates(r);
    RemoveFromDistinct(r, |skills|);
    assert r[..|skills|] == skills;
  }

  // ----- the component state -----

  /** The state of one mounted application form. `scheduledReturns` counts
      the `setTimeout(onBack, 2000)` callbacks scheduled and not yet run. */
  class Form {
    var formData: InternshipApplication
    var errors: ErrorMap
    var toast: Toast
    var isLoading: bool
    var skillInput: string
    var scheduledReturns: nat

    ghost predicate Valid()
      reads this
    {
      WellFormedSkills(formData.additionalInfo.skills) && errors.Keys <= FieldNames(ValidatorOrder)
    }

    constructor ()
      ensures Valid()
      ensures formData == InitialApplication && errors == map[] && toast == InitialToast
      ensures !isLoading && skillInput == "" && scheduledReturns == 0
    {
      formData := InitialApplication;
      errors := map[];
      toast := InitialToast;
      isLoading := false;
      skillInput := "";
      scheduledReturns := 0;
    }

    /** `validateForm`: runs the `if` lines in order on a fresh map, stores
        it in `errors` and reports whether it came out empty. The result
        depends on the record alone, never on the errors shown before. */
    method ValidateForm() returns (ok: bool)
      requires Valid()
      modifies this`errors
      ensures Valid()
      ensures errors == ValidationErrors(formData)
      ensures ok <==> errors == map[]
      ensures ok <==> forall l :: !Missing(CheckOf(l), Get(formData, l))
    {
      var newErrors: ErrorMap := map[];
      var i := 0;
      while i < |ValidatorOrder|
        invariant i <= |ValidatorOrder|
        invariant newErrors == ErrorsFrom(formData, ValidatorOrder[..i])
      {
        var l := ValidatorOrder[i];
        ghost var before := newErrors;
        if Missing(CheckOf(l), Get(formData, l)) {
          newErrors := newErrors[FieldName(l) := Message(l)];
        }
        LineStep(formData, ValidatorOrder, i, before, newErrors);
        i := i + 1;
      }
      assert ValidatorOrder[..i] == ValidatorOrder;
      ValidationErrorsMeaning(formData);
      ValidIffComplete(formData);
      errors := newErrors;
      ok := |newErrors| == 0;
    }

    /** `handleInputChange(section, field, value)`. */
    method HandleInputChange(leaf: Leaf, value: string)
      requires Valid()
      modifies this`formData, this`errors
      ensures Valid()
      ensures formData == SetLeaf(old(formData), leaf, value)
      ensures errors == ClearError(old(errors), FieldName(leaf))
    {
      formData := SetLeaf(formData, leaf, value);
      var field := FieldName(leaf);
      if field in errors && errors[field] != "" {
        errors := errors[field := ""];
      }
    }

    /** The skill input's `onChange`: `setSkillInput(e.target.value)`. */
    method SetSkillInput(value: string)
      requires Valid()
      modifies this`skillInput
      ensures Valid()
      ensures skillInput == value
    {
      skillInput := value;
    }

    /** `addSkill`. */
    method AddSkill()
      requires Valid()
      modifies this`formData, this`skillInput
      ensures Valid()
      ensures formData == old(formData).(additionalInfo := old(formData).additionalInfo.(
                skills := AddSkillTo(old(formData).additionalInfo.skills, old(skillInput))))
      ensures skillInput == if Accepts(old(formData).additionalInfo.skills, old(skillInput)) then "" else old(skillInput)
    {
      AddSkillKeepsWellFormed(formData.additionalInfo.skills, skillInput);
      var t := Trim(skillInput);
      if t != "" && t !in formData.additionalInfo.skills {
        formData := formData.(additionalInfo := formData.additionalInfo.(
          skills := formData.additionalInfo.skills + [t]));
        skillInput := "";
      }
    }

    /** `removeSkill(skillToRemove)`. */
    method RemoveSkill(skillToRemove: string)
      requires Valid()
      modifies this`formData
      ensures Valid()
      ensures formData == old(formData).(additionalInfo := old(formData).additionalInfo.(
                skills := RemoveSkillFrom(old(formData).additionalInfo.skills, skillToRemove)))
    {
      RemoveSkillKeepsWellFormed(formData.additionalInfo.skills, skillToRemove);
      formData := formData.(additionalInfo := formData.additionalInfo.(
        skills := RemoveSkillFrom(formData.additionalInfo.skills, skillToRemove)));
    }

    /** `handleSubmit`, with the gateway's settled result given as `outcome`.
        `request` is the record handed to the gateway (None: no call was
        made); `loadingAtCall` is `isLoading` at the moment of the call. */
    method HandleSubmit(outcome: GatewayOutcome<InternshipApplication>)
      returns (request: Option<InternshipApplication>, loadingAtCall: bool)
      requires Valid()
      modifies this`errors, this`toast, this`isLoading, this`scheduledReturns
      ensures Valid()
      ensures formData == old(formData) && skillInput == old(skillInput)
      ensures errors == ValidationErrors(formData)
      ensures errors != map[] ==>
                && request == None && toast == ValidationFailedToast
                && isLoading == old(isLoading) && scheduledReturns == old(scheduledReturns)
      ensures errors == map[] ==>
                && request == Some(formData) && loadingAtCall && !isLoading
                && toast == OutcomeToast(outcome)
                && scheduledReturns == old(scheduledReturns) + if Succeeded(outcome) then 1 else 0
    {
      var valid := ValidateForm();
      if !valid {
        toast := Toast(true, ValidationFailedMessage, ErrorToast);
        return None, false;
      }
      isLoading := true;
      request := Some(formData);
      loadingAtCall := isLoading;
      match outcome {
        case Responded(response) =>
          if response.success {
            toast := Toast(true, response.message, SuccessToast);
            scheduledReturns := scheduledReturns + 1;
          } else {
            toast := Toast(true, response.message, ErrorToast);
          }
        case Threw =>
          toast := Toast(true, UnexpectedErrorMessage, ErrorToast);
      }
      isLoading := false;
    }

    /** The toast's `onClose`. */
    method CloseToast()
      requires Valid()
      modifies this`toast
      ensures Valid()
      ensures toast == Closed(old(toast))
    {
      toast := toast.(isVisible := false);
    }

    /** One scheduled `setTimeout(() => onBack(), 2000)` callback runs; the
        caller then runs `onBack`. */
    method RunScheduledReturn()
      requires Valid() && scheduledReturns > 0
      modifies this`scheduledReturns
      ensures Valid()
      ensures scheduledReturns == old(scheduledReturns) - 1
    {
      scheduledReturns := scheduledReturns - 1;
    }
  }
}
