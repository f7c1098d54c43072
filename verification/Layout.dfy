/** Records laid out as consecutive fields of fixed widths. */
module Layout {

  function Sum(widths: seq<nat>): nat {
    if widths == [] then 0 else widths[0] + Sum(widths[1..])
  }

  /** The fields of a record. */
  function Cut<T>(record: seq<T>, widths: seq<nat>): (fields: seq<seq<T>>)
    requires |record| == Sum(widths)
    ensures |fields| == |widths|
    decreases |widths|
  {
    if widths == [] then [] else [record[..widths[0]]] + Cut(record[widths[0]..], widths[1..])
  }

  function Joined<T>(fields: seq<seq<T>>): seq<T> {
    if fields == [] then [] else fields[0] + Joined(fields[1..])
  }

  predicate Fits<T>(fields: seq<seq<T>>, widths: seq<nat>) {
    |fields| == |widths| && forall k :: 0 <= k < |fields| ==> |fields[k]| == widths[k]
  }

  /** Cutting and joining are inverse, both ways. */
  lemma {:induction false} CutJoins<T>(record: seq<T>, widths: seq<nat>)
    requires |record| == Sum(widths)
    ensures Joined(Cut(record, widths)) == record && Fits(Cut(record, widths), widths)
    decreases |widths|
  {
    if widths != [] {
      CutJoins(record[widths[0]..], widths[1..]);
      assert Cut(record, widths)[1..] == Cut(record[widths[0]..], widths[1..]);
    }
  }

  lemma {:induction false} JoinedCuts<T>(fields: seq<seq<T>>, widths: seq<nat>)
    requires Fits(fields, widths)
    ensures |Joined(fields)| == Sum(widths) && Cut(Joined(fields), widths) == fields
    decreases |widths|
  {
    if widths != [] {
      JoinedCuts(fields[1..], widths[1..]);
      assert Joined(fields)[widths[0]..] == Joined(fields[1..]);
    }
  }

  /** Field `k` starts where the fields before it end. */
  lemma {:induction false} CutAt<T>(record: seq<T>, widths: seq<nat>, k: nat)
    requires |record| == Sum(widths) && k < |widths|
    ensures Sum(widths[..k]) + widths[k] <= |record|
    ensures Cut(record, widths)[k] == record[Sum(widths[..k])..Sum(widths[..k]) + widths[k]]
    decreases |widths|
  {
    if k > 0 {
      CutAt(record[widths[0]..], widths[1..], k - 1);
      assert widths[..k][1..] == widths[1..][..k - 1];
    }
  }

  lemma {:induction false} SumStep(widths: seq<nat>, k: nat)
    requires k < |widths|
    ensures Sum(widths[..k + 1]) == Sum(widths[..k]) + widths[k]
    decreases |widths|
  {
    if k > 0 {
      SumStep(widths[1..], k - 1);
      assert widths[..k][1..] == widths[1..][..k - 1] && widths[..k + 1][1..] == widths[1..][..k];
    }
  }

  lemma {:induction false} JoinedStep<T>(fields: seq<seq<T>>, k: nat)
    requires k < |fields|
    ensures Joined(fields[..k + 1]) == Joined(fields[..k]) + fields[k]
    decreases |fields|
  {
    if k > 0 {
      JoinedStep(fields[1..], k - 1);
      assert fields[..k][1..] == fields[1..][..k - 1] && fields[..k + 1][1..] == fields[1..][..k];
    }
  }
}
