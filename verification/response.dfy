/** `check_response`: the shape check applied to every decoded API answer
    before its homework list is used. */
module ResponseCheck {
  import opened Results
  import opened JsonValues

  /** One tag per check. Python raises TypeError for each, and uses the
      same text for both missing keys. */
  datatype ResponseError = NotDict | NoHomeworks | NoCurrentDate | HomeworksNotList

  /** Number of checks `check_response` runs. */
  const CheckCount: nat := 4

  /** Position of the check raising `e` in the order the source runs them. */
  function Rank(e: ResponseError): (k: nat)
    ensures k < CheckCount
  {
    match e
    case NotDict => 0
    case NoHomeworks => 1
    case NoCurrentDate => 2
    case HomeworksNotList => 3
  }

  /** Whether the response meets the condition at position `k` of the
      check order, judged on its own and not only when it is reached. */
  predicate Passes(k: nat, response: Json)
  {
    if k == 0 then response.Obj?
    else if k == 1 then Has(response, "homeworks")
    else if k == 2 then Has(response, "current_date")
    else if k == 3 then Lookup(response, "homeworks").Arr?
    else true
  }

  /** `check_response`: the first check that fails decides the error; when
      all pass, the `homeworks` list is returned as it is, possibly empty. */
  function CheckResponse(response: Json): (r: Result<seq<Json>, ResponseError>)
    ensures r.Success? <==> forall k :: 0 <= k < CheckCount ==> Passes(k, response)
    ensures r.Failure? ==> !Passes(Rank(r.error), response)
    ensures r.Failure? ==> forall k :: 0 <= k < Rank(r.error) ==> Passes(k, response)
    ensures r.Success? ==> Has(response, "homeworks") && response.fields["homeworks"] == Arr(r.value)
  {
    if !response.Obj? then
      assert !Passes(0, response);
      Failure(NotDict)
    else if "homeworks" !in response.fields then
      assert !Passes(1, response);
      Failure(NoHomeworks)
    else if "current_date" !in response.fields then
      assert !Passes(2, response);
      Failure(NoCurrentDate)
    else if !response.fields["homeworks"].Arr? then
      assert !Passes(3, response);
      Failure(HomeworksNotList)
    else
      Success(response.fields["homeworks"].items)
  }

  /** A response that carries both keys and a list is always accepted, and
      none of its other fields, nor the value of `current_date`, changes
      what is returned. */
  lemma AcceptsAnyWellFormed(fields: map<string, Json>, homeworks: seq<Json>)
    requires "current_date" in fields
    requires "homeworks" in fields && fields["homeworks"] == Arr(homeworks)
    ensures CheckResponse(Obj(fields)) == Success(homeworks)
  {
  }

  /** Two responses that agree on the `homeworks` entry and on whether
      `current_date` is present get the same verdict. */
  lemma ResultDependsOnlyOnHomeworks(a: map<string, Json>, b: map<string, Json>)
    requires ("homeworks" in a) == ("homeworks" in b)
    requires "homeworks" in a ==> a["homeworks"] == b["homeworks"]
    requires ("current_date" in a) == ("current_date" in b)
    ensures CheckResponse(Obj(a)) == CheckResponse(Obj(b))
  {
  }

  /** A response missing both keys reports `homeworks`, the earlier check. */
  lemma MissingBothReportsHomeworks(fields: map<string, Json>)
    requires "homeworks" !in fields && "current_date" !in fields
    ensures CheckResponse(Obj(fields)) == Failure(NoHomeworks)
  {
  }

  /** A non-list `homeworks` is only reported once `current_date` is known
      to be present. */
  lemma NotListNeedsCurrentDate(fields: map<string, Json>)
    requires "homeworks" in fields && !fields["homeworks"].Arr?
    ensures "current_date" in fields ==> CheckResponse(Obj(fields)) == Failure(HomeworksNotList)
    ensures "current_date" !in fields ==> CheckResponse(Obj(fields)) == Failure(NoCurrentDate)
  {
  }
}
