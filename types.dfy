/** The records the two forms edit and the response shape of the submission
    gateway (src/types/index.ts). Every leaf of a record is a string except the
    skill list; `workMode` is a string too, because the select writes
    `e.target.value as any` into it. */
module Types {

  datatype Option<T> = None | Some(value: T)

  /** The three work modes the selects offer. */
  datatype WorkMode = Remote | OnSite | Hybrid {
    function Label(): string {
      match this
      case Remote => "Remote"
      case OnSite => "On-site"
      case Hybrid => "Hybrid"
    }
  }

  // ----- InternshipApplication -----

  datatype PersonalInfo = PersonalInfo(
    firstName: string, lastName: string, email: string, phone: string,
    dateOfBirth: string, address: string)

  datatype AcademicInfo = AcademicInfo(
    university: string, degree: string, major: string, graduationDate: string, gpa: string)

  datatype InternshipInfo = InternshipInfo(
    position: string, department: string, startDate: string, duration: string, workMode: string)

  datatype AdditionalInfo = AdditionalInfo(
    coverLetter: string, skills: seq<string>, previousExperience: string)

  datatype InternshipApplication = InternshipApplication(
    id: Option<string>,
    personalInfo: PersonalInfo,
    academicInfo: AcademicInfo,
    internshipInfo: InternshipInfo,
    additionalInfo: AdditionalInfo)

  // ----- OfferLetter -----

  datatype CandidateInfo = CandidateInfo(name: string, email: string, address: string)

  datatype PositionDetails = PositionDetails(
    title: string, department: string, startDate: string, duration: string,
    stipend: string, workMode: string)

  datatype CompanyInfo = CompanyInfo(
    name: string, address: string, contactPerson: string, contactEmail: string)

  /** The `additionalTerms` slot. It is declared a string, but the generic
      update spreads it into an object (see OfferLetterForm.SetLeaf): the
      object keeps the index keys `"0" .. "n-1"` of the string it was spread
      from, held here as `spread`, plus the key `additionalTerms`. */
  datatype Terms = TermsText(text: string) | TermsObject(spread: string, additionalTerms: string)

  datatype OfferLetter = OfferLetter(
    id: Option<string>,
    candidateInfo: CandidateInfo,
    positionDetails: PositionDetails,
    companyInfo: CompanyInfo,
    additionalTerms: Terms)

  // ----- gateway response -----

  datatype ApiResponse<T> = ApiResponse(
    success: bool, data: Option<T>, message: string, error: Option<string>)
}
