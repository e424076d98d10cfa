/** The media serializer (`MediaSerializer`): the type check, the owner
    assignment on create, and the gateway URL reported for a stored file. */
module Serializers {
  import opened Text
  import opened Models

  datatype Result<T> = Ok(value: T) | Failure(message: string)

  const InvalidType := "Invalid media type. Allowed: image, video, audio"
  const MissingContext := "Request context missing or invalid user."
  const MissingUserId := "Invalid user authentication."

  /** `validate_type`: the value itself when it is an allowed type. */
  function ValidateType(value: string): Result<string>
  {
    if value !in {"image", "video", "audio"} then Failure(InvalidType) else Ok(value)
  }

  /** A validated field value, as handed to `Media.objects.create`. The
      serializer's `file` is a read-only method field, so no validated
      field ever holds an uploaded file. */
  datatype Value = Text(s: string) | Number(n: int) | Null

  type Fields = map<string, Value>

  /** The user attached to a request; `NoUser` is a request without a
      `user` attribute, `User(None)` a user without an id. */
  datatype Requester = NoUser | User(id: Option<int>)

  /** The parts of the serializer context's request that are read. */
  datatype Request = Request(user: Requester, forwardedHost: Option<string>, host: string)

  /** The first half of `create`: check the context, then replace whatever
      `user` the data held by the requester's id. The result is the keyword
      arguments passed to `Media.objects.create`. */
  method Create(validatedData: Fields, context: Option<Request>) returns (r: Result<Fields>)
    ensures (context.None? || context.value.user.NoUser?) ==> r == Failure(MissingContext)
    ensures context.Some? && context.value.user == User(None) ==> r == Failure(MissingUserId)
    ensures context.Some? && context.value.user.User? && context.value.user.id.Some? ==>
      r.Ok? && r.value.Keys == validatedData.Keys + {"user"} &&
      r.value["user"] == Number(context.value.user.id.value) &&
      forall k :: k in validatedData && k != "user" ==> r.value[k] == validatedData[k]
  {
    if context.None? || context.value.user.NoUser? {
      return Failure(MissingContext);
    }
    var user := context.value.user;
    if user.id.None? {
      return Failure(MissingUserId);
    }
    var data := validatedData;
    data := data - {"user"};
    data := data["user" := Number(user.id.value)];
    return Ok(data);
  }

  /** The host part of a `host[:port]` text: everything before the first
      colon, or all of it. */
  function HostPart(host: string): string
  {
    if ':' in host then Split(host, ':')[0] else host
  }

  /** The host the file URL names: the forwarded host when the gateway sent
      a non-empty one, else the request's own host, else `localhost` when
      there is no request. */
  function GatewayHost(context: Option<Request>): string
  {
    match context
    case None => "localhost"
    case Some(request) =>
      match request.forwardedHost
      case Some(forwarded) =>
        if forwarded != "" then HostPart(forwarded) else HostPart(request.host)
      case None => HostPart(request.host)
  }

  /** `get_file`: the URL of the stored file on the gateway's port 3000. */
  function GetFile(m: Media, context: Option<Request>): Option<string>
  {
    if HasFile(m) then
      var parts := SplitOnce(m.file.value.name, '/');
      if |parts| == 2 then
        var mediaType, filename := parts[0], parts[1];
        Some("http://" + GatewayHost(context) + ":3000/media/" + mediaType + "/" + filename)
      else None
    else None
  }

  // ---------------------------------------------------------------------
  // Properties

  /** A type is accepted unchanged exactly when it is one of the record's
      choices, and refused with the fixed message otherwise. */
  lemma ValidateTypeExactly(value: string)
    ensures ValidateType(value).Ok? <==> value in MediaTypes
    ensures ValidateType(value).Ok? ==> ValidateType(value).value == value
    ensures ValidateType(value).Failure? ==> ValidateType(value).message == InvalidType
  {
  }

  /** The host part holds no colon and is the host up to its first colon. */
  lemma HostPartBeforeColon(host: string)
    ensures ':' !in HostPart(host)
    ensures ':' !in host ==> HostPart(host) == host
    ensures ':' in host ==>
      |HostPart(host)| < |host| && host[..|HostPart(host)|] == HostPart(host) && host[|HostPart(host)|] == ':'
  {
    SplitFirst(host, ':');
  }

  /** A forwarded host takes precedence over the request's own host. */
  lemma ForwardedHostFirst(forwarded: string, host: string, user: Requester)
    requires forwarded != ""
    ensures GatewayHost(Some(Request(user, Some(forwarded), host))) == HostPart(forwarded)
    ensures GatewayHost(Some(Request(user, None, host))) == HostPart(host)
    ensures GatewayHost(Some(Request(user, Some(""), host))) == HostPart(host)
  {
  }

  /** No URL is reported for a record without a file or for a stored name
      without a '/'. */
  lemma GetFileNone(m: Media, context: Option<Request>)
    ensures GetFile(m, context).None? <==> !HasFile(m) || '/' !in m.file.value.name
  {
  }

  /** The URL is the gateway host, port 3000, `/media/` and the stored name:
      the type is the text before the first '/', the file name is all the
      rest, slashes included. */
  lemma GetFileUrl(m: Media, context: Option<Request>)
    requires HasFile(m) && '/' in m.file.value.name
    ensures GetFile(m, context) == Some("http://" + GatewayHost(context) + ":3000/media/" + m.file.value.name)
    ensures var parts := SplitOnce(m.file.value.name, '/');
      '/' !in parts[0] && m.file.value.name == parts[0] + "/" + parts[1]
  {
    var name := m.file.value.name;
    var parts := SplitOnce(name, '/');
    var prefix := "http://" + GatewayHost(context) + ":3000/media/";
    assert parts[0] + ['/'] + parts[1] == name;
    assert prefix + parts[0] + "/" + parts[1] == prefix + (parts[0] + "/" + parts[1]);
  }
}
