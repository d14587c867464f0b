/**
 * The shared records of the chat and authentication code (interfaces/index.ts):
 * artifacts, chat messages, the signed-in user, the token pair and the
 * authentication state.
 */
module Interfaces {
  import opened Wrappers

  datatype ArtifactKind = Code | Search | Visualization | Text

  datatype Metadata = Metadata(language: Option<string>, title: Option<string>, description: Option<string>)

  /** A typed segment of assistant output. The random `id` the client gives
      some artifacts is not modelled. */
  datatype Artifact = Artifact(kind: ArtifactKind, content: string, metadata: Option<Metadata>)

  datatype Role = User | Assistant

  /** A chat message of the chat hook: numeric id, role, body and optional artifacts. */
  datatype Message = Message(id: int, role: Role, content: string, artifacts: Option<seq<Artifact>>)

  datatype UserInfo = UserInfo(
    id: int,
    username: string,
    email: string,
    firstName: string,
    lastName: string,
    isSuperuser: bool,
    isStaff: bool,
    isActive: bool,
    dateJoined: string,
    lastLogin: Option<string>,
    profileImage: Option<string>)

  datatype AuthTokens = AuthTokens(access: string, refresh: string)

  datatype AuthState = AuthState(
    user: Option<UserInfo>,
    tokens: Option<AuthTokens>,
    isAuthenticated: bool,
    isLoading: bool)
}
