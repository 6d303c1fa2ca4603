/** The server calls that the core makes, as abstract requests and replies.
    HTTP, URLs and headers are not modelled: what a call answers is an input. */
module Transport {
  import opened Wrappers

  /** The answer of an authentication endpoint (register, login/password, refresh):
      the `token` and `refresh_token` of the response body, or a thrown error whose
      `response.status` is known only when a response arrived (`None`: no response). */
  datatype AuthReply =
    | Tokens(token: string, refreshToken: string)
    | Failed(status: Option<int>)

  /** The answer of GET user/key: a body whose `token` is missing or null (`None`)
      or a string, or a thrown error. */
  datatype KeyReply =
    | KeyBody(token: Option<string>)
    | KeyFailed(status: Option<int>)

  /** One request sent to the server, with the arguments it was sent with. */
  datatype Request =
    | Register(userName: string, rawPassword: string)
    | LoginWithPassword(userName: string, rawPassword: string)
    | RefreshAuthToken(refreshToken: string)
    | GetDoorKey(accessToken: string)
}
