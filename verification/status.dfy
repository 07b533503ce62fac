/** `parse_status`: the translation of one homework record into the
    notification text, through the fixed verdict table. */
module StatusParse {
  import opened Results
  import opened JsonValues

  /** `HOMEWORK_VERDICTS`: review status to human-readable verdict. */
  const Verdicts: map<string, string> := map[
    "approved" := "Работа проверена: ревьюеру всё понравилось. Ура!",
    "reviewing" := "Работа взята на проверку ревьюером.",
    "rejected" := "Работа проверена: у ревьюера есть замечания."
  ]

  /** Text that precedes the quoted homework name in every notification. */
  const Lead: string := "Изменился статус проверки работы \""

  /** Errors `parse_status` raises, in the order its checks run:
      AttributeError when the record is not a dict, TypeError when the
      status cannot be used as a table key, KeyError for each missing key
      (name first), ValueError naming an unknown status. */
  datatype StatusError =
    | NotMapping
    | UnhashableStatus(status: Json)
    | MissingName
    | MissingStatus
    | UnknownStatus(status: Json)

  /** Number of checks `parse_status` runs. */
  const CheckCount: nat := 5

  /** Position of the check raising `e` in the order the source runs them. */
  function Rank(e: StatusError): (k: nat)
    ensures k < CheckCount
  {
    match e
    case NotMapping => 0
    case UnhashableStatus(_) => 1
    case MissingName => 2
    case MissingStatus => 3
    case UnknownStatus(_) => 4
  }

  /** Whether the record meets the condition at position `k` of the
      check order, judged on its own. */
  predicate Passes(k: nat, hw: Json)
  {
    if k == 0 then hw.Obj?
    else if k == 1 then Hashable(Lookup(hw, "status"))
    else if k == 2 then Has(hw, "homework_name")
    else if k == 3 then Has(hw, "status")
    else if k == 4 then Lookup(hw, "status").Str? && Lookup(hw, "status").s in Verdicts
    else true
  }

  /** The exact notification for a homework name and a verdict. */
  function Notification(name: Json, verdict: string): string
  {
    Lead + Render(name) + "\". " + verdict
  }

  /** `parse_status`: the first failing check decides the error, which
      carries the offending status where the source names it; otherwise
      the notification built from the name and the status's verdict. */
  function ParseStatus(hw: Json): (r: Result<string, StatusError>)
    ensures r.Success? <==> forall k :: 0 <= k < CheckCount ==> Passes(k, hw)
    ensures r.Failure? ==> !Passes(Rank(r.error), hw)
    ensures r.Failure? ==> forall k :: 0 <= k < Rank(r.error) ==> Passes(k, hw)
    ensures r.Failure? && (r.error.UnhashableStatus? || r.error.UnknownStatus?) ==>
              r.error.status == Lookup(hw, "status")
    ensures r.Success? ==>
              var status := Lookup(hw, "status");
              status.Str? && status.s in Verdicts &&
              r.value == Notification(Lookup(hw, "homework_name"), Verdicts[status.s])
  {
    if !hw.Obj? then
      assert !Passes(0, hw);
      Failure(NotMapping)
    else
      var name := Lookup(hw, "homework_name");
      var status := Lookup(hw, "status");
      if !Hashable(status) then
        assert !Passes(1, hw);
        Failure(UnhashableStatus(status))
      else if "homework_name" !in hw.fields then
        assert !Passes(2, hw);
        Failure(MissingName)
      else if "status" !in hw.fields then
        assert !Passes(3, hw);
        Failure(MissingStatus)
      else if !(status.Str? && status.s in Verdicts) then
        assert !Passes(4, hw);
        Failure(UnknownStatus(status))
      else
        Success(Notification(name, Verdicts[status.s]))
  }

  /** Every status in the table is accepted for a well-formed record. */
  lemma KnownStatusSucceeds(fields: map<string, Json>, status: string)
    requires "homework_name" in fields
    requires status in Verdicts && "status" in fields && fields["status"] == Str(status)
    ensures ParseStatus(Obj(fields)) == Success(Notification(fields["homework_name"], Verdicts[status]))
  {
  }

  /** A string status outside the table is rejected, naming the value. */
  lemma UnknownStatusNamed(fields: map<string, Json>, status: string)
    requires "homework_name" in fields
    requires status !in Verdicts && "status" in fields && fields["status"] == Str(status)
    ensures ParseStatus(Obj(fields)) == Failure(UnknownStatus(Str(status)))
  {
  }

  /** A record missing both keys reports the name. */
  lemma MissingBothReportsName(fields: map<string, Json>)
    requires "homework_name" !in fields && "status" !in fields
    ensures ParseStatus(Obj(fields)) == Failure(MissingName)
  {
  }

  /** The notification determines the verdict: for one name, two different
      verdicts never give the same text, so a status change is always a
      change of message. */
  lemma NotificationDeterminesVerdict(name: Json, v1: string, v2: string)
    requires Notification(name, v1) == Notification(name, v2)
    ensures v1 == v2
  {
    var head := Lead + Render(name) + "\". ";
    assert Notification(name, v1) == head + v1;
    assert Notification(name, v2) == head + v2;
    assert (head + v1)[|head|..] == v1;
    assert (head + v2)[|head|..] == v2;
  }

  /** For the same homework, a different known status gives a different
      notification. */
  lemma StatusChangeChangesMessage(name: Json, s1: string, s2: string)
    requires s1 in Verdicts && s2 in Verdicts && s1 != s2
    ensures ParseStatus(Obj(map["homework_name" := name, "status" := Str(s1)]))
         != ParseStatus(Obj(map["homework_name" := name, "status" := Str(s2)]))
  {
  }

  /** The `hw1` / `approved` example, with its exact text written out
      piece by piece. */
  lemma ApprovedExample()
    ensures ParseStatus(Obj(map["homework_name" := Str("hw1"), "status" := Str("approved")]))
         == Success("Изменился статус проверки работы \"" + "hw1" + "\". "
                    + "Работа проверена: ревьюеру всё понравилось. Ура!")
  {
  }
}
