/** How a connection process reads a request: command, credentials, what it does next. */
module Dispatch {
  import opened CText
  import opened CjsonHandler

  const K_COMMAND: CString := "command"
  const K_HOSTNAME: CString := "hostname"
  const K_PASSWORD: CString := "password"
  const ADMIN: CString := "ubuntu"

  /** get_command while no signal has been handled: -1 if the request has no command. */
  function Command(request: CString): int {
    match Get(request, K_COMMAND) case Some(c) => Atoi(c) case None => -1
  }

  /** check_credentials returns 0. */
  predicate CredentialsOk(request: CString) {
    Get(request, K_HOSTNAME) == Some(ADMIN) && Get(request, K_PASSWORD) == Some(ADMIN)
  }

  datatype Reaction = Close | SendStatus | Deny | Modify | Ignore

  /** The switch of run_admin_server. */
  function TcpReaction(request: CString): Reaction {
    var c := Command(request);
    if c == 0 then Close
    else if c == 1 then SendStatus
    else if c == 2 then if CredentialsOk(request) then Modify else Deny
    else Ignore
  }

  /** The switch of run_normal_user_server: command 2 is always denied. */
  function UdpReaction(request: CString): Reaction {
    var c := Command(request);
    if c == 0 then Close else if c == 1 then SendStatus else if c == 2 then Deny else Ignore
  }

  // ----- in the request's own words --------------------------------------------------------

  /** The request asks for command `n`. */
  predicate Asks(request: CString, n: int) {
    Get(request, "command").Some? && Atoi(Get(request, "command").value) == n
  }

  /** The request carries the administrator's name and password. */
  predicate SignedByAdmin(request: CString) {
    Get(request, "hostname") == Some("ubuntu") && Get(request, "password") == Some("ubuntu")
  }

  /** What each request leads to over TCP, and that a request without a command leads to nothing. */
  lemma TcpReactions(request: CString)
    ensures TcpReaction(request) == Close <==> Asks(request, 0)
    ensures TcpReaction(request) == SendStatus <==> Asks(request, 1)
    ensures TcpReaction(request) == Modify <==> Asks(request, 2) && SignedByAdmin(request)
    ensures TcpReaction(request) == Deny <==> Asks(request, 2) && !SignedByAdmin(request)
    ensures Get(request, "command").None? ==> TcpReaction(request) == Ignore
  {
  }

  /** Over UDP nobody modifies, whatever the credentials. */
  lemma UdpReactions(request: CString)
    ensures UdpReaction(request) == Close <==> Asks(request, 0)
    ensures UdpReaction(request) == SendStatus <==> Asks(request, 1)
    ensures UdpReaction(request) == Deny <==> Asks(request, 2)
    ensures UdpReaction(request) != Modify
    ensures Get(request, "command").None? ==> UdpReaction(request) == Ignore
  {
  }
}
