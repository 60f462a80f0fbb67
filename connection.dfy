/**
 * The connection state machine: the `requirements_exists` guard that every
 * client operation runs first, and the order in which connect_document tries
 * its three resolvers (key, then name, then URL).
 */
module Connection {
  import opened Sheets

  /** One argument of the decorator: '*' or the name of one part. */
  datatype Requirement = Star | Needs(part: Part)

  const ALL: seq<Requirement> := [Star]
  const CLIENT_ONLY: seq<Requirement> := [Needs(Client)]
  const CLIENT_AND_DOCUMENT: seq<Requirement> := [Needs(Client), Needs(Document)]

  /** Which of client, document and sheet are set (not None) on the client object. */
  datatype Presence = Presence(client: bool, document: bool, sheet: bool)

  predicate Has(p: Presence, part: Part) {
    match part
    case Client => p.client
    case Document => p.document
    case Sheet => p.sheet
  }

  /** The guard's checking order: client, then document, then sheet. */
  function Rank(part: Part): nat {
    match part
    case Client => 0
    case Document => 1
    case Sheet => 2
  }

  /** The parts a decorator argument list demands: all three when its first argument is '*'. */
  function Required(reqs: seq<Requirement>): (parts: set<Part>)
    requires |reqs| > 0
    ensures reqs[0] == Star ==> parts == {Client, Document, Sheet}
    ensures reqs[0] != Star ==> forall part: Part :: part in parts <==> Needs(part) in reqs
  {
    if reqs[0] == Star then {Client, Document, Sheet}
    else set r | r in reqs && r.Needs? :: r.part
  }

  /**
   * The part the guard complains about, if any: a required part that is
   * missing, and the first such part in checking order.
   */
  function FirstMissing(p: Presence, reqs: seq<Requirement>): (r: Option<Part>)
    requires |reqs| > 0
    ensures r == None <==> forall part: Part :: part in Required(reqs) ==> Has(p, part)
    ensures r.Some? ==> r.value in Required(reqs) && !Has(p, r.value)
    ensures r.Some? ==> forall part: Part :: part in Required(reqs) && Rank(part) < Rank(r.value) ==> Has(p, part)
  {
    var need := Required(reqs);
    if Client in need && !p.client then Some(Client)
    else if Document in need && !p.document then Some(Document)
    else if Sheet in need && !p.sheet then Some(Sheet)
    else None
  }

  /** '*' demands exactly what listing the three parts in order demands, whatever follows it. */
  lemma StarMeansAllParts(p: Presence, rest: seq<Requirement>)
    ensures FirstMissing(p, [Star] + rest) == FirstMissing(p, [Needs(Client), Needs(Document), Needs(Sheet)])
  {
    var listed := [Needs(Client), Needs(Document), Needs(Sheet)];
    assert Needs(Client) in listed && Needs(Document) in listed && Needs(Sheet) in listed;
    assert Required(listed) == {Client, Document, Sheet};
  }

  /** '*' is honoured only as the first argument: after another requirement it demands nothing. */
  lemma StarOnlyFirst(p: Presence)
    ensures FirstMissing(p, [Needs(Client), Star]) == (if p.client then None else Some(Client))
  {
    var reqs := [Needs(Client), Star];
    assert Needs(Client) in reqs;
    assert forall part: Part :: Needs(part) in reqs ==> part == Client;
    assert Required(reqs) == {Client};
  }

  /** The three argument lists the client uses: what each lets through. */
  lemma GuardPresets(p: Presence)
    ensures FirstMissing(p, ALL) == None <==> p.client && p.document && p.sheet
    ensures FirstMissing(p, CLIENT_AND_DOCUMENT) == None <==> p.client && p.document
    ensures FirstMissing(p, CLIENT_ONLY) == None <==> p.client
  {
    assert Required(CLIENT_AND_DOCUMENT) == {Client, Document} by {
      assert Needs(Client) in CLIENT_AND_DOCUMENT && Needs(Document) in CLIENT_AND_DOCUMENT;
    }
    assert Required(CLIENT_ONLY) == {Client} by {
      assert Needs(Client) in CLIENT_ONLY;
    }
  }

  /**
   * Where connect_document (src) stops: the first resolver whose answer is not
   * "None". An earlier answer of "None" is skipped; a raised exception is not.
   */
  function FirstAnswer<T>(attempts: seq<Lookup<T>>): (k: nat)
    ensures k <= |attempts|
    ensures forall j :: 0 <= j < k ==> attempts[j] == NotFound
    ensures k < |attempts| ==> attempts[k] != NotFound
  {
    if attempts == [] || attempts[0] != NotFound then 0
    else 1 + FirstAnswer(attempts[1..])
  }

  /** The first answer is at the first index whose resolver did not answer None. */
  lemma FirstAnswerIs<T>(attempts: seq<Lookup<T>>, i: nat)
    requires i <= |attempts| && forall j :: 0 <= j < i ==> attempts[j] == NotFound
    requires i < |attempts| ==> attempts[i] != NotFound
    ensures FirstAnswer(attempts) == i
  {
    var k := FirstAnswer(attempts);
    if k < i {
      assert false;
    }
  }

  /**
   * Where the legacy connect_document stops: the first resolver that found a
   * document. Resolvers that raised or answered None are both skipped.
   */
  function FirstFound<T>(attempts: seq<Lookup<T>>): (k: nat)
    ensures k <= |attempts|
    ensures forall j :: 0 <= j < k ==> !attempts[j].Found?
    ensures k < |attempts| ==> attempts[k].Found?
  {
    if attempts == [] || attempts[0].Found? then 0
    else 1 + FirstFound(attempts[1..])
  }

  /** The first document found is at the first index whose resolver found one. */
  lemma FirstFoundIs<T>(attempts: seq<Lookup<T>>, i: nat)
    requires i <= |attempts| && forall j :: 0 <= j < i ==> !attempts[j].Found?
    requires i < |attempts| ==> attempts[i].Found?
    ensures FirstFound(attempts) == i
  {
    var k := FirstFound(attempts);
    if k < i {
      assert false;
    }
  }

  /** When nothing raised, the two resolver orders agree on which document wins. */
  lemma {:induction false} FirstAnswerAgreesWithoutRaises<T>(attempts: seq<Lookup<T>>)
    requires forall j :: 0 <= j < |attempts| ==> attempts[j] != Raised
    ensures FirstAnswer(attempts) == FirstFound(attempts)
  {
    if attempts != [] && attempts[0] == NotFound {
      FirstAnswerAgreesWithoutRaises(attempts[1..]);
    }
  }
}
