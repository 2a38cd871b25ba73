/**
 * The doctor's overview tab: the vital-sign badges, the active diagnoses and
 * the first three active prescriptions.
 */
module OverviewTab {
  import opened Seqs

  datatype Diagnosis = Diagnosis(
    id: string, date: string, code: string, description: string,
    severity: string, status: string)

  datatype Prescription = Prescription(
    id: string, medication: string, dosage: string, frequency: string,
    duration: string, startDate: string, status: string)

  /** The badge on a vital sign: "Норма" for the status "normal", "Отклонение" for anything else. */
  function VitalBadge(status: string): (text: string)
    ensures text == "Норма" <==> status == "normal"
    ensures text == "Отклонение" <==> status != "normal"
  {
    if status == "normal" then "Норма" else "Отклонение"
  }

  /**
   * The "active diagnoses" card: exactly the active ones, each as often as
   * in the list, in list order.
   */
  function ActiveDiagnoses(ds: seq<Diagnosis>): (r: seq<Diagnosis>)
    ensures forall i :: 0 <= i < |r| ==> r[i].status == "active"
    ensures forall i :: 0 <= i < |ds| && ds[i].status == "active" ==> ds[i] in r
    ensures forall d :: multiset(r)[d] == if d.status == "active" then multiset(ds)[d] else 0
    ensures IsSubsequence(r, ds)
  {
    FilterCount(ds, (d: Diagnosis) => d.status == "active");
    FilterKeepsOrder(ds, (d: Diagnosis) => d.status == "active");
    Filter(ds, (d: Diagnosis) => d.status == "active")
  }

  /** The active prescriptions, each as often as in the list, in list order. */
  function ActivePrescriptions(ps: seq<Prescription>): (r: seq<Prescription>)
    ensures forall i :: 0 <= i < |r| ==> r[i].status == "active"
    ensures forall i :: 0 <= i < |ps| && ps[i].status == "active" ==> ps[i] in r
    ensures forall p :: multiset(r)[p] == if p.status == "active" then multiset(ps)[p] else 0
    ensures IsSubsequence(r, ps)
  {
    FilterCount(ps, (p: Prescription) => p.status == "active");
    FilterKeepsOrder(ps, (p: Prescription) => p.status == "active");
    Filter(ps, (p: Prescription) => p.status == "active")
  }

  /**
   * The "current prescriptions" card: the first min(3, #active) active
   * prescriptions, in list order.
   */
  function ShownPrescriptions(ps: seq<Prescription>): (r: seq<Prescription>)
    ensures |r| <= 3
    ensures |r| == if |ActivePrescriptions(ps)| < 3 then |ActivePrescriptions(ps)| else 3
    ensures forall i :: 0 <= i < |r| ==> r[i].status == "active"
    ensures r == ActivePrescriptions(ps)[..|r|]
  {
    Take(ActivePrescriptions(ps), 3)
  }

  /** When any prescription is active, the first shown is the first active one in the list. */
  lemma FirstShownIsFirstActive(ps: seq<Prescription>, i: int)
    requires 0 <= i < |ps| && ps[i].status == "active"
    requires forall j :: 0 <= j < i ==> ps[j].status != "active"
    ensures ShownPrescriptions(ps) != [] && ShownPrescriptions(ps)[0] == ps[i]
  {
    FilterHead(ps, (p: Prescription) => p.status == "active", i);
  }

  /** With no active prescription the card is empty, whatever else the list holds. */
  lemma NoActiveNoneShown(ps: seq<Prescription>)
    requires forall i :: 0 <= i < |ps| ==> ps[i].status != "active"
    ensures ShownPrescriptions(ps) == []
  {
    var active := ActivePrescriptions(ps);
    if active != [] {
      SubsequenceMember(active, ps, 0);
    }
  }
}
