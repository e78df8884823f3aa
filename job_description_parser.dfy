/** The document-parsing tab (src/components/job-description-parser.tsx): the
    sample document it always sends, the structured record that comes back and
    the loading/result state of the panel. */
module JobDescriptionParser {
  import opened Common

  /** The sample document: the parse button sends this text and no other. */
  const MockFileContent: string :=
    "\n"
    + "Company: InnovateTech Solutions\n"
    + "About: We are a leading provider of cutting-edge technology solutions, specializing in AI and machine learning. Our mission is to empower businesses with innovative tools to drive growth and efficiency.\n"
    + "\n"
    + "Role: Senior Frontend Engineer\n"
    + "We are seeking a talented Senior Frontend Engineer to join our dynamic team. The ideal candidate will have a passion for creating beautiful and performant user interfaces.\n"
    + "\n"
    + "Experience: 5+ years of professional frontend development experience.\n"
    + "Skills: React, TypeScript, GraphQL, Next.js, Webpack.\n"
    + "Package: $120,000 - $150,000 per year\n"
    + "Location: San Francisco, CA (Hybrid)\n"
    + "Responsibilities:\n"
    + "- Develop and maintain user-facing features.\n"
    + "- Build reusable code and libraries for future use.\n"
    + "- Ensure the technical feasibility of UI/UX designs.\n"
    + "- Optimize applications for maximum speed and scalability.\n"
    + "- Collaborate with other team members and stakeholders.\n"

  /** `ParseJobDescriptionFileInput`. */
  datatype ParseRequest = ParseRequest(fileContent: string)

  /** `ParseJobDescriptionFileOutput`. */
  datatype ParsedJobDescription = ParsedJobDescription(
    companyName: string, aboutCompany: string, jobTitle: string, requiredExperience: string,
    requiredSkills: seq<string>, rolesAndResponsibilities: seq<string>,
    salaryPackage: string, location: string, otherInfo: string)

  /** One titled block of the result card: a paragraph or a bulleted list. */
  datatype Section = TextSection(heading: string, text: string) | ListSection(heading: string, items: seq<string>)

  /** The result card: the eight fixed sections in order, then "Other
      Information" only when that field is non-empty. */
  function Sections(p: ParsedJobDescription): (r: seq<Section>)
    ensures |r| == if p.otherInfo != "" then 9 else 8
    ensures r[0] == TextSection("Company Name", p.companyName)
    ensures r[4] == ListSection("Required Skills", p.requiredSkills)
    ensures r[5] == ListSection("Roles and Responsibilities", p.rolesAndResponsibilities)
    ensures |r| == 9 ==> r[8] == TextSection("Other Information", p.otherInfo)
  {
    [ TextSection("Company Name", p.companyName),
      TextSection("About the Company", p.aboutCompany),
      TextSection("Job Title", p.jobTitle),
      TextSection("Required Experience", p.requiredExperience),
      ListSection("Required Skills", p.requiredSkills),
      ListSection("Roles and Responsibilities", p.rolesAndResponsibilities),
      TextSection("Salary / Package Offered", p.salaryPackage),
      TextSection("Location", p.location) ]
    + (if p.otherInfo != "" then [TextSection("Other Information", p.otherInfo)] else [])
  }

  function TextOf(s: Section): string
  {
    if s.TextSection? then s.text else ""
  }

  function ItemsOf(s: Section): seq<string>
  {
    if s.ListSection? then s.items else []
  }

  /** Reads a record back off a result card: an absent "Other Information"
      section stands for an empty field. */
  function FromSections(r: seq<Section>): ParsedJobDescription
    requires |r| >= 8
  {
    ParsedJobDescription(
      TextOf(r[0]), TextOf(r[1]), TextOf(r[2]), TextOf(r[3]), ItemsOf(r[4]), ItemsOf(r[5]),
      TextOf(r[6]), TextOf(r[7]), if |r| > 8 then TextOf(r[8]) else "")
  }

  /** The card shows every field of the record: reading it back gives the
      record itself. */
  lemma SectionsShowEverything(p: ParsedJobDescription)
    ensures FromSections(Sections(p)) == p
  {
  }

  /** The result area: spinner while parsing, placeholder without a result,
      otherwise the sections. */
  function ParserPanels(isLoading: bool, parsedData: Option<ParsedJobDescription>): (r: set<Panel>)
    ensures |r| == 1
    ensures Content in r <==> !isLoading && parsedData.Some?
  {
    ShownPanels(isLoading, parsedData.Some?)
  }

  class ParserState {
    var parsedData: Option<ParsedJobDescription>
    var isLoading: bool

    constructor ()
      ensures parsedData == None && !isLoading
    {
      parsedData := None;
      isLoading := false;
    }

    /** `handleParse` up to the `await`: loading on, the old result cleared,
        the sample document sent. */
    method BeginParse() returns (request: ParseRequest)
      modifies this
      ensures isLoading && parsedData == None
      ensures request == ParseRequest(MockFileContent)
    {
      isLoading := true;
      parsedData := None;
      request := ParseRequest(MockFileContent);
    }

    /** `handleParse` after the `await`: the record is stored on success and
        left as it was on failure; loading ends either way. */
    method CompleteParse(outcome: Outcome<ParsedJobDescription>)
      modifies this
      ensures !isLoading
      ensures parsedData == if outcome.Resolved? then Some(outcome.value) else old(parsedData)
    {
      if outcome.Resolved? {
        parsedData := Some(outcome.value);
      }
      isLoading := false;
    }

    /** The whole of `handleParse`: afterwards the card shows exactly the
        call's record, or the placeholder after a failure. */
    method HandleParse(outcome: Outcome<ParsedJobDescription>) returns (request: ParseRequest)
      modifies this
      ensures request == ParseRequest(MockFileContent)
      ensures !isLoading
      ensures parsedData == if outcome.Resolved? then Some(outcome.value) else None
      ensures ParserPanels(isLoading, parsedData) == if outcome.Resolved? then {Content} else {Placeholder}
    {
      request := BeginParse();
      CompleteParse(outcome);
    }
  }
}
