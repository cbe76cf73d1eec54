/**
 * The header selector: each resource maps to one versioned media type, which
 * is sent both as the content type and as the accepted type.
 */
module Headers {
  import opened Types
  import opened Http

  /**
   * The four values of `WhispirSDKConstants` the selector uses. Their text is not
   * part of this model; only the facts in `WellFormed` are relied on.
   */
  datatype Catalogue = Catalogue(
    messagesResource: string,
    workspacesResource: string,
    messageHeaderV1: string,
    workspaceHeaderV1: string)
  {
    /** Java requires distinct case labels, and the two media types are different types. */
    predicate WellFormed()
    {
      messagesResource != workspacesResource && messageHeaderV1 != workspaceHeaderV1
    }
  }

  const ContentType: string := "Content-Type"
  const Accept: string := "Accept"

  /** The `switch` of `setHeaders`: the media type for a resource, or none for an unknown resource. */
  function HeaderFor(c: Catalogue, resource: string): (r: Option<string>)
    ensures r.Some? <==> resource == c.messagesResource || resource == c.workspacesResource
    ensures r.Some? ==> r.value == c.messageHeaderV1 || r.value == c.workspaceHeaderV1
  {
    if resource == c.messagesResource then Some(c.messageHeaderV1)
    else if resource == c.workspacesResource then Some(c.workspaceHeaderV1)
    else None
  }

  /** Messages get the message media type, workspaces the workspace media type, and the two differ. */
  lemma HeaderSelection(c: Catalogue)
    requires c.WellFormed()
    ensures HeaderFor(c, c.messagesResource) == Some(c.messageHeaderV1)
    ensures HeaderFor(c, c.workspacesResource) == Some(c.workspaceHeaderV1)
    ensures HeaderFor(c, c.messagesResource) != HeaderFor(c, c.workspacesResource)
  {
  }

  /**
   * `setHeaders`: sets Content-Type and Accept to the resource's media type, or
   * throws before touching the request when the resource is unknown.
   */
  method SetHeaders(request: HttpRequest, resource: string, c: Catalogue) returns (r: Outcome<SdkException>)
    modifies request`headers
    ensures HeaderFor(c, resource).None? ==>
      r == Fail(SdkException(ResourceNotFoundError)) && request.headers == old(request.headers)
    ensures HeaderFor(c, resource).Some? ==>
      r == Pass &&
      request.headers == old(request.headers)[ContentType := HeaderFor(c, resource).value][Accept := HeaderFor(c, resource).value]
    ensures r.Pass? ==> request.headers[ContentType] == request.headers[Accept]
  {
    var header := "";
    if resource == c.messagesResource {
      header := c.messageHeaderV1;
    } else if resource == c.workspacesResource {
      header := c.workspaceHeaderV1;
    } else {
      return Fail(SdkException(ResourceNotFoundError));
    }
    request.headers := request.headers[ContentType := header];
    request.headers := request.headers[Accept := header];
    r := Pass;
  }
}
