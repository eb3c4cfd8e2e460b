/**
 * The path-naming layer. Every node is a record holding its own segment and,
 * except for the top node, the node it is rooted at; `Build` joins the chain
 * from the top down. The URI builder's slash handling is taken to be plain
 * concatenation of the segments.
 */
module Paths {
  import opened Wrappers

  /** The three record kinds of the sealed path hierarchy. */
  datatype Path =
    | ApiPaths(segment: string, root: Option<Path>)
    | MessagesPaths(segment: string, root: Option<Path>)
    | MessagesEndpoint(segment: string, root: Option<Path>)

  /** The full path of a node: the root's full path (empty without a root) followed by its own segment. */
  function Build(p: Path): (r: string)
    ensures |p.segment| <= |r| && r[|r| - |p.segment|..] == p.segment
    ensures p.root.None? ==> r == p.segment
    decreases p
  {
    match p.root
    case None => p.segment
    case Some(q) => Build(q) + p.segment
  }

  /** The nodes above `p`, nearest first. */
  function Ancestors(p: Path): seq<Path>
    decreases p
  {
    match p.root
    case None => []
    case Some(q) => [q] + Ancestors(q)
  }

  /** The full path of every ancestor is a prefix of the node's full path. */
  lemma {:induction false} AncestorBuildIsPrefix(p: Path, i: nat)
    requires i < |Ancestors(p)|
    ensures Build(Ancestors(p)[i]) <= Build(p)
    decreases p
  {
    var q := p.root.value;
    if i > 0 {
      AncestorBuildIsPrefix(q, i - 1);
      PrefixOfPrefix(Build(Ancestors(q)[i - 1]), Build(q), p.segment);
    }
  }

  /** A prefix of `a` is a prefix of `a + b`. */
  lemma PrefixOfPrefix(x: string, a: string, b: string)
    requires x <= a
    ensures x <= a + b
  {
    assert (a + b)[..|x|] == a[..|x|];
  }

  /** The top node: `/api`, with no root. */
  function ApiPath(): (p: Path)
    ensures p.ApiPaths? && p.root == None
    ensures Ancestors(p) == []
    ensures Build(p) == "/api"
  {
    ApiPaths("/api", None)
  }

  /** `/api/messages`; its root is a fresh top node whatever node it is asked of. */
  function MessagesPath(api: Path): (m: Path)
    requires api.ApiPaths?
    ensures m.MessagesPaths? && m.root == Some(ApiPath())
    ensures Ancestors(m) == [ApiPath()]
    ensures Build(m) == "/api/messages"
  {
    var m := MessagesPaths("/messages", Some(ApiPath()));
    assert Build(m) == Build(ApiPath()) + "/messages";
    m
  }

  /** The one-argument endpoint constructor: the endpoint is always rooted at `/api/messages`. */
  function Endpoint(segment: string): (e: Path)
    ensures e.MessagesEndpoint? && e.segment == segment
    ensures Ancestors(e) == [MessagesPath(ApiPath()), ApiPath()]
    ensures Build(e) == "/api/messages" + segment
  {
    var e := MessagesEndpoint(segment, Some(MessagesPath(ApiPath())));
    assert Build(e) == Build(MessagesPath(ApiPath())) + segment;
    e
  }

  function PublicPath(messages: Path): (p: Path)
    requires messages.MessagesPaths?
    ensures p.MessagesEndpoint? && Build(p) == "/api/messages/public"
  {
    Endpoint("/public")
  }

  function ProtectedPath(messages: Path): (p: Path)
    requires messages.MessagesPaths?
    ensures p.MessagesEndpoint? && Build(p) == "/api/messages/protected"
  {
    Endpoint("/protected")
  }

  function AdminPath(messages: Path): (p: Path)
    requires messages.MessagesPaths?
    ensures p.MessagesEndpoint? && Build(p) == "/api/messages/admin"
  {
    Endpoint("/admin")
  }

  /** The three endpoints build to pairwise distinct full paths. */
  lemma EndpointPaths(messages: Path)
    requires messages.MessagesPaths?
    ensures Build(PublicPath(messages)) != Build(ProtectedPath(messages))
    ensures Build(PublicPath(messages)) != Build(AdminPath(messages))
    ensures Build(ProtectedPath(messages)) != Build(AdminPath(messages))
  {
    assert Build(PublicPath(messages))[15] == 'u';
    assert Build(ProtectedPath(messages))[15] == 'r';
    assert Build(AdminPath(messages))[15] == 'd';
  }
}
