/** The request and response records of the HTTP interface (pydantic models).
    A required `str` field is a `string`; an `Optional[...] = None` field is an
    `Option`. Field names are the JSON keys written in camelCase. */
module Schemas {
  import opened Common

  // -------- requests

  datatype CompanyCreate = CompanyCreate(username: string, companyName: string, password: string, companyEmail: string)

  /** The login form: all three fields are required. */
  datatype LoginRequest = LoginRequest(username: string, companyName: string, password: string)

  datatype ChatRequest = ChatRequest(message: string)

  datatype TeamCreate = TeamCreate(teamName: string, teamPassword: string)

  datatype ProjectCreate = ProjectCreate(projectName: string, projectPassword: string)

  // -------- file entries

  /** One uploaded document as listed on its owner: the model-inferred name,
      the loader's `source`, the stored file name and the id its chunks carry. */
  datatype FileInfo = FileInfo(pdfName: string, source: string, filename: string, parentId: string)

  // -------- responses

  /** The public view of a company. It has no password, email or session
      token field, so none of them can reach a response. */
  datatype CompanyOut = CompanyOut(
    id: nat,
    username: string,
    companyName: string,
    companyFilesName: Option<seq<FileInfo>>,
    noOfTeams: int,
    noOfProjects: int)

  datatype TokenResponse = TokenResponse(accessToken: string, tokenType: string)

  /** The default of `TokenResponse.token_type`. */
  const SimpleTokenType := "simple"

  datatype TeamOut = TeamOut(id: nat, teamName: string, teamFilesName: Option<seq<FileInfo>>)

  datatype ProjectOut = ProjectOut(id: nat, projectName: string, projectFilesName: Option<seq<FileInfo>>)

  // -------- project information

  datatype ProjectMember = ProjectMember(name: string, role: string, skills: seq<string>)

  /** Every field optional; an omitted field is None. */
  datatype ProjectInformation = ProjectInformation(
    projectDescription: Option<string>,
    noProjectMembers: Option<int>,
    projectMembers: Option<seq<ProjectMember>>,
    techstackOrTool: Option<string>,
    domain: Option<string>)

  /** `ProjectInformation()` built from an empty body. */
  const EmptyProjectInformation := ProjectInformation(None, None, None, None, None)
}
