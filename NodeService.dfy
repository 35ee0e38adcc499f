/**
 * Adding a node (internal/service/node/service.go): start a transaction,
 * validate the body, then the headers, store the node and commit.
 */
module NodeService {

  import opened Json
  import opened Outcomes
  import opened Nodes
  import opened NodeValidation
  import opened Requests
  import opened Stores

  /** The node Add builds from a request and the validated specs; its id is still empty. */
  function NodeOf(req: AddNodeRequest, body: map<string, BodyField>, headers: map<string, Header>): Node
  {
    Node("", req.name, req.url, req.httpMethod, headers, body,
         req.responseDirection, req.requestMime, req.responseMime, req.apiKey)
  }

  /** The headers validateHeader accepts. */
  predicate HeadersAccepted(headers: map<string, JsonValue>)
  {
    HeadersDecode(headers) && forall k | k in headers :: HeaderShapeValid(DecodeHeader(headers[k]).value)
  }

  /**
   * Add: the first error of the transaction start, body validation or header
   * validation is returned and nothing is written; otherwise the node is
   * inserted, a failed insert is a DatabaseError, and the commit comes only
   * after a successful insert. The node returned carries the request's
   * fields, the validated specs and the id of the inserted record, which is
   * the record Node.ToModel built and so the zero id.
   */
  method Add(req: AddNodeRequest, tx: Transaction) returns (r: Result<Node>, effects: seq<Effect>)
    ensures !r.Panic?
    ensures !tx.starts ==> r == Fail(TxError) && effects == []
    ensures tx.starts && !BodyDecodes(req.body) ==> r == Fail(ParseError) && effects == []
    ensures tx.starts && req.body != map[] ==> r.Fail? && r.kind in {ParseError, ValidationFailed} && effects == []
    ensures tx.starts && req.body == map[] && !HeadersDecode(req.headers) ==> r == Fail(ParseError) && effects == []
    ensures tx.starts && req.body == map[] && HeadersDecode(req.headers) && !HeadersAccepted(req.headers) ==>
              r == Fail(ValidationFailed) && effects == []
    ensures tx.starts && req.body == map[] && HeadersAccepted(req.headers) ==>
              var node := NodeOf(req, map[], map k | k in req.headers :: DecodeHeader(req.headers[k]).value);
              && effects == [InsertNode(NodeToModel(node))] + (if tx.inserts then [Commit] else [])
              && (!tx.inserts ==> r == Fail(DatabaseError))
              && (tx.inserts && !tx.commits ==> r == Fail(TxError))
              && (tx.inserts && tx.commits ==> r == Ok(node.(id := ZeroId)))
  {
    effects := [];
    if !tx.starts {
      return Fail(TxError), effects;
    }
    var fields := ValidateBody(req.body);
    if !fields.Ok? {
      return Fail(fields.kind), effects;
    }
    var headers := ValidateHeader(req.headers);
    if !headers.Ok? {
      return Fail(headers.kind), effects;
    }
    assert req.body == map[] && fields.value == map[];
    assert headers.value == map k | k in req.headers :: DecodeHeader(req.headers[k]).value;
    assert HeadersAccepted(req.headers);
    var node := NodeOf(req, fields.value, headers.value);
    var model := ToModel(node);
    // Node.ToModel cannot fail: every spec marshals
    effects := effects + [InsertNode(model)];
    if !tx.inserts {
      return Fail(DatabaseError), effects;
    }
    // the insert hands back `model`, so the id is the one ToModel left unset
    node := node.(id := model.id);
    effects := effects + [Commit];
    if !tx.commits {
      return Fail(TxError), effects;
    }
    return Ok(node), effects;
  }

  /**
   * Add with the intended body validation and the intended stored record:
   * a body is accepted iff every field keeps the rule of its kind, and the
   * stored response mime is the request's response mime.
   */
  method AddIntended(req: AddNodeRequest, tx: Transaction) returns (r: Result<Node>, effects: seq<Effect>)
    ensures !r.Panic?
    ensures !tx.starts ==> r == Fail(TxError) && effects == []
    ensures tx.starts && !SchemaValid(req.body) ==> r.Fail? && r.kind in {ParseError, ValidationFailed} && effects == []
    ensures tx.starts && SchemaValid(req.body) && !HeadersAccepted(req.headers) ==> r.Fail? && effects == []
    ensures tx.starts && SchemaValid(req.body) && HeadersAccepted(req.headers) ==>
              var node := NodeOf(req, map k | k in req.body :: DecodeBodyField(req.body[k]).value,
                                 map k | k in req.headers :: DecodeHeader(req.headers[k]).value);
              && effects == [InsertNode(NodeToModelIntended(node))] + (if tx.inserts then [Commit] else [])
              && (!tx.inserts ==> r == Fail(DatabaseError))
              && (tx.inserts && !tx.commits ==> r == Fail(TxError))
              && (tx.inserts && tx.commits ==> r == Ok(node.(id := ZeroId)))
  {
    effects := [];
    if !tx.starts {
      return Fail(TxError), effects;
    }
    var fields := ValidateBodyIntended(req.body);
    if !fields.Ok? {
      return Fail(fields.kind), effects;
    }
    var headers := ValidateHeader(req.headers);
    if !headers.Ok? {
      return Fail(headers.kind), effects;
    }
    assert headers.value == map k | k in req.headers :: DecodeHeader(req.headers[k]).value;
    assert HeadersAccepted(req.headers);
    var node := NodeOf(req, fields.value, headers.value);
    var model := ToModel(node);
    model := model.(responseMime := node.responseMime);
    effects := effects + [InsertNode(model)];
    if !tx.inserts {
      return Fail(DatabaseError), effects;
    }
    node := node.(id := model.id);
    effects := effects + [Commit];
    if !tx.commits {
      return Fail(TxError), effects;
    }
    return Ok(node), effects;
  }
}
