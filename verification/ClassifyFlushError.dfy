/**
 * apps/worker/src/batch/classify-flush-error.ts: which flush failures belong to a row.
 *
 * A rejection value is represented by what the classifier can see of it: the codes met while
 * following `cause` links. `links[k]` is the k-th Error of the chain with its string `code`, if it
 * has one; a value that is not an Error at all is the empty chain. A cyclic chain is represented
 * by any unrolling of at least five links: the walk never looks further.
 */
module ClassifyFlushError {
  import opened Prelude

  datatype Thrown = Thrown(links: seq<Option<string>>)

  datatype FlushErrorClassification = RowFault | Infrastructure

  const MAX_CAUSE_DEPTH: nat := 5

  /** The first code within the first five links. */
  ghost predicate IsSqlState(e: Thrown, code: Option<string>) {
    match code
    case None => forall k :: 0 <= k < |e.links| && k < MAX_CAUSE_DEPTH ==> e.links[k].None?
    case Some(c) =>
      exists k :: 0 <= k < |e.links| && k < MAX_CAUSE_DEPTH && e.links[k] == Some(c)
                  && forall j :: 0 <= j < k ==> e.links[j].None?
  }

  function FirstCode(links: seq<Option<string>>, depth: nat): Option<string> {
    if depth == 0 || links == [] then None
    else if links[0].Some? then links[0]
    else FirstCode(links[1..], depth - 1)
  }

  function SqlState(e: Thrown): Option<string> {
    FirstCode(e.links, MAX_CAUSE_DEPTH)
  }

  lemma {:induction false} FirstCodeMeaning(links: seq<Option<string>>, depth: nat)
    ensures
      match FirstCode(links, depth)
      case None => forall k :: 0 <= k < |links| && k < depth ==> links[k].None?
      case Some(c) =>
        exists k :: 0 <= k < |links| && k < depth && links[k] == Some(c)
                    && forall j :: 0 <= j < k ==> links[j].None?
  {
    if depth != 0 && links != [] && links[0].None? {
      FirstCodeMeaning(links[1..], depth - 1);
      match FirstCode(links[1..], depth - 1)
      case None =>
        forall k | 0 <= k < |links| && k < depth ensures links[k].None? {
          if k > 0 { assert links[k] == links[1..][k - 1]; }
        }
      case Some(c) =>
        var k :| 0 <= k < |links[1..]| && k < depth - 1 && links[1..][k] == Some(c)
                 && forall j :: 0 <= j < k ==> links[1..][j].None?;
        assert links[k + 1] == Some(c);
        forall j | 0 <= j < k + 1 ensures links[j].None? {
          if j > 0 { assert links[j] == links[1..][j - 1]; }
        }
    }
  }

  /** The walk along `cause`: at most five links, stopping at the first code. */
  method ExtractSqlState(e: Thrown) returns (code: Option<string>)
    ensures IsSqlState(e, code)
    ensures code == SqlState(e)
  {
    var depth := 0;
    while depth < MAX_CAUSE_DEPTH && depth < |e.links|
      invariant 0 <= depth <= MAX_CAUSE_DEPTH && depth <= |e.links|
      invariant forall j :: 0 <= j < depth ==> e.links[j].None?
      invariant SqlState(e) == FirstCode(e.links[depth..], MAX_CAUSE_DEPTH - depth)
    {
      if e.links[depth].Some? {
        return e.links[depth];
      }
      assert e.links[depth..][1..] == e.links[depth + 1..];
      depth := depth + 1;
    }
    return None;
  }

  /** JavaScript's `s.slice(0, 2)`. */
  function FirstTwo(s: string): string {
    if |s| <= 2 then s else s[..2]
  }

  function Classify(e: Thrown): FlushErrorClassification {
    match SqlState(e)
    case None => Infrastructure
    case Some(code) => if FirstTwo(code) == "22" || FirstTwo(code) == "23" then RowFault else Infrastructure
  }

  /**
   * The allowlist is closed: a verdict of row fault means that some link within the first five
   * carries a code of class 22 or 23 and that no earlier link carries any code.
   */
  lemma RowFaultMeans(e: Thrown)
    ensures Classify(e) == RowFault <==>
      exists k :: 0 <= k < |e.links| && k < 5 && e.links[k].Some?
                  && (forall j :: 0 <= j < k ==> e.links[j].None?)
                  && ("22" <= e.links[k].value || "23" <= e.links[k].value)
  {
    FirstCodeMeaning(e.links, MAX_CAUSE_DEPTH);
    forall s: string
      ensures FirstTwo(s) == "22" <==> "22" <= s
      ensures FirstTwo(s) == "23" <==> "23" <= s
    {
      if |s| >= 2 {
        assert s[..2] == [s[0], s[1]];
      }
    }
  }
}
