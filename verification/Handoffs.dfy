/** Issuing a handoff: what `issueHandoff` writes is what `applicableHandoff` later accepts. */
module Handoffs {
  import opened Text
  import opened Paths
  import opened PathSets
  import opened Records
  import opened Directory
  import opened Rendezvous

  datatype IssueRefused =
    | IssuerIncomplete | IssuerNotIntegrator | RecipientIncomplete | NoNote | NoNodeOrBase
    | PathRefused(why: Refusal) | NoPaths | HandoffIdTaken

  datatype IssueInput = IssueInput(by_: Owner, to: Owner, node: string, baseSha: string, paths: seq<string>, note: string)

  /** The record a call writes under `id`, or why it throws first. */
  function Issued(input: IssueInput, id: Id): Result<Handoff, IssueRefused> {
    if !Complete(input.by_) then Err(IssuerIncomplete)
    else if input.by_.role != INTEGRATOR then Err(IssuerNotIntegrator)
    else if !Complete(input.to) then Err(RecipientIncomplete)
    else if !NonEmpty(input.note) then Err(NoNote)
    else if !NonEmpty(input.node) || !NonEmpty(input.baseSha) then Err(NoNodeOrBase)
    else
      match CanonicalSet(input.paths)
      case Err(why) => Err(PathRefused(why))
      case Ok(scope) =>
        if scope == [] then Err(NoPaths)
        else Ok(Handoff(id, PROGRAM, input.by_, input.to, input.node, input.baseSha, Spellings(scope)))
  }

  method IssueHandoff(dir: Rendezvous, input: IssueInput, id: Id) returns (r: Result<Handoff, IssueRefused>)
    modifies dir
    ensures r == if Issued(input, id).Ok? && id in old(dir.handoffs) then Err(HandoffIdTaken) else Issued(input, id)
    ensures dir.Model() == if r.Ok? then Put(old(dir.Model()), PutHandoff(r.value)) else old(dir.Model())
  {
    hide CanonicalSet, Complete, NonEmpty;
    r := Issued(input, id);
    if r.Err? { return; }
    var published := dir.PublishExclusive(PutHandoff(r.value));
    if !published { return Err(HandoffIdTaken); }
  }

  /** A handoff is issued if and only if the integrator issues it to a complete process, with a note, for readable paths. */
  lemma IssuedIff(input: IssueInput, id: Id)
    ensures Issued(input, id).Ok? <==>
              && Complete(input.by_) && input.by_.role == INTEGRATOR && Complete(input.to)
              && NonEmpty(input.note) && NonEmpty(input.node) && NonEmpty(input.baseSha)
              && input.paths != [] && forall i :: 0 <= i < |input.paths| ==> Canonical(input.paths[i]).Ok?
  {
    hide Complete, NonEmpty, Canonical;
    ReadableSet(input.paths);
  }

  /**
   * An issued handoff authorizes exactly the claims by its recipient, however that process is
   * spelled, for the same node and base, whose reduced paths are the ones it was issued for.
   */
  lemma IssuedAuthorizesExactly(input: IssueInput, id: Id, owner: Owner, node: string, baseSha: string, scope: seq<CanonicalPath>)
    requires Issued(input, id).Ok?
    ensures Authorizes(Issued(input, id).value, id, owner, node, baseSha, scope)
            <==> SameOwner(input.to, owner) && node == input.node && baseSha == input.baseSha
                 && SameScope(CanonicalSet(input.paths).value, scope)
  {
    hide CanonicalSet, SameOwner, Complete, NonEmpty, SameScope;
    ReductionIsIdempotent(input.paths);
  }

  lemma EntriesAreSound(paths: seq<string>)
    requires CanonicalSet(paths).Ok?
    ensures EntriesOf(paths).Ok? && forall e :: e in EntriesOf(paths).value ==> (e.directory <==> NamesDirectory(paths, e.key))
  {
    hide EntriesOf, Uncovered, SortByKey, Canonical;
    EntriesSound(paths);
  }

  /** A claim naming the issued paths in any order, or repeating some, has the issued scope. */
  lemma ScopeIgnoresOrder(paths: seq<string>, others: seq<string>)
    requires CanonicalSet(paths).Ok? && forall p :: p in paths <==> p in others
    ensures CanonicalSet(others).Ok? && SameScope(CanonicalSet(paths).value, CanonicalSet(others).value)
  {
    hide CanonicalSet, EntriesOf, Canonical, KeyContains, Less;
    ReductionIgnoresOrder(paths, others);
    ReducedKeys(paths);
    ReducedKeys(others);
    EntriesAreSound(paths);
    EntriesAreSound(others);
    var a, b := CanonicalSet(paths).value, CanonicalSet(others).value;
    assert Keys(a) == Keys(b);
    forall i | 0 <= i < |a| ensures a[i].key == b[i].key && a[i].directory == b[i].directory {
      assert Keys(a)[i] == Keys(b)[i];
      assert a[i] in EntriesOf(paths).value && b[i] in EntriesOf(others).value;
      assert NamesDirectory(paths, a[i].key) <==> NamesDirectory(others, a[i].key);
    }
  }
}
