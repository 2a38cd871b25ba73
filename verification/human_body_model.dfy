/**
 * The body map: each shape is coloured by the status of the body part with
 * its id, a selected part gets advice chosen by its status, and the quick
 * overview lists the parts that are not in good shape.
 */
module HumanBodyModel {
  import opened Wrappers
  import opened Display
  import opened Seqs

  /** `status` is "good", "warning" or "attention"; `notes` is optional. */
  datatype BodyPart = BodyPart(id: string, name: string, status: string, notes: Option<string>)

  const BodyParts: seq<BodyPart> := [
    BodyPart("head", "Голова", "good", None),
    BodyPart("chest", "Грудная клетка", "warning", Some("Лёгкий дискомфорт")),
    BodyPart("stomach", "Живот", "good", None),
    BodyPart("left-arm", "Левая рука", "good", None),
    BodyPart("right-arm", "Правая рука", "good", None),
    BodyPart("left-leg", "Левая нога", "attention", Some("Требует внимания")),
    BodyPart("right-leg", "Правая нога", "good", None)
  ]

  const GoodColor := "#10B981"
  const WarningColor := "#F59E0B"
  const AttentionColor := "#EF4444"
  const UnknownColor := "#6B7280"

  /** `getStatusColor`: green, amber, red, and grey for any other status. */
  function StatusColor(status: string): (color: string)
    ensures color == GoodColor <==> status == "good"
    ensures color == WarningColor <==> status == "warning"
    ensures color == AttentionColor <==> status == "attention"
    ensures color == UnknownColor <==> status !in {"good", "warning", "attention"}
  {
    if status == "good" then GoodColor
    else if status == "warning" then WarningColor
    else if status == "attention" then AttentionColor
    else UnknownColor
  }

  /** `getStatusBadge`: the quick-overview badge, none for an unknown status. */
  function StatusBadge(status: string): (b: Option<Badge>)
    ensures b.None? <==> status !in {"good", "warning", "attention"}
    ensures b == Some(Badge("Норма", Default)) <==> status == "good"
    ensures b == Some(Badge("Наблюдение", Default)) <==> status == "warning"
    ensures b == Some(Badge("Внимание", Destructive)) <==> status == "attention"
  {
    if status == "good" then Some(Badge("Норма", Default))
    else if status == "warning" then Some(Badge("Наблюдение", Default))
    else if status == "attention" then Some(Badge("Внимание", Destructive))
    else None
  }

  /** `parts.find(p => p.id === id)`: the first part with that id, if any. */
  function FindPart(parts: seq<BodyPart>, id: string): (r: Option<BodyPart>)
    ensures r.None? <==> forall i :: 0 <= i < |parts| ==> parts[i].id != id
    ensures r.Some? ==> exists i :: 0 <= i < |parts| && parts[i] == r.value
                          && r.value.id == id && forall j :: 0 <= j < i ==> parts[j].id != id
  {
    if parts == [] then None
    else if parts[0].id == id then Some(parts[0])
    else FindPart(parts[1..], id)
  }

  /**
   * The fill of the shape with id `id`: `find(...)?.status || 'good'`, so a
   * missing part or an empty status is coloured as good.
   */
  function ShapeColor(parts: seq<BodyPart>, id: string): (color: string)
    ensures (forall i :: 0 <= i < |parts| ==> parts[i].id != id) ==> color == GoodColor
    ensures FindPart(parts, id).Some? && FindPart(parts, id).value.status != "" ==>
              color == StatusColor(FindPart(parts, id).value.status)
  {
    var found := FindPart(parts, id);
    StatusColor(if found.Some? && found.value.status != "" then found.value.status else "good")
  }

  /** The advice shown for the selected part. */
  function Advice(status: string): (text: string)
    ensures text == "Рекомендуется консультация специалиста" <==> status == "attention"
    ensures text == "Продолжайте наблюдение, улучшения заметны" <==> status == "warning"
    ensures text == "Показатели в норме, продолжайте в том же духе" <==> status != "attention" && status != "warning"
  {
    if status == "attention" then "Рекомендуется консультация специалиста"
    else if status == "warning" then "Продолжайте наблюдение, улучшения заметны"
    else "Показатели в норме, продолжайте в том же духе"
  }

  /** The quick overview: every part not in good shape, as often as listed, in table order. */
  function QuickOverview(parts: seq<BodyPart>): (r: seq<BodyPart>)
    ensures forall i :: 0 <= i < |r| ==> r[i].status != "good"
    ensures forall i :: 0 <= i < |parts| && parts[i].status != "good" ==> parts[i] in r
    ensures forall p :: multiset(r)[p] == if p.status != "good" then multiset(parts)[p] else 0
    ensures IsSubsequence(r, parts)
  {
    FilterCount(parts, (p: BodyPart) => p.status != "good");
    FilterKeepsOrder(parts, (p: BodyPart) => p.status != "good");
    Filter(parts, (p: BodyPart) => p.status != "good")
  }

  /** "Все показатели в норме" is shown when the quick overview is empty. */
  predicate AllNormalShown(parts: seq<BodyPart>) {
    |QuickOverview(parts)| == 0
  }

  /** The all-normal message appears exactly when every part is good. */
  lemma AllNormalIffAllGood(parts: seq<BodyPart>)
    ensures AllNormalShown(parts) <==> forall i :: 0 <= i < |parts| ==> parts[i].status == "good"
  {
    if !AllNormalShown(parts) {
      var p := QuickOverview(parts)[0];
      assert p in parts by {
        assert IsSubsequence(QuickOverview(parts), parts);
        SubsequenceMember(QuickOverview(parts), parts, 0);
      }
    }
  }

  /** In the initial table the overview lists the chest and then the left leg. */
  lemma InitialOverview()
    ensures QuickOverview(BodyParts) == [BodyParts[1], BodyParts[5]]
  {
    OverviewOfSeven(BodyParts);
  }

  /** Seven parts of which only the second and the sixth are not good: the overview is those two. */
  lemma OverviewOfSeven(ps: seq<BodyPart>)
    requires |ps| == 7 && ps[1].status != "good" && ps[5].status != "good"
    requires ps[0].status == "good" && ps[2].status == "good" && ps[3].status == "good"
    requires ps[4].status == "good" && ps[6].status == "good"
    ensures QuickOverview(ps) == [ps[1], ps[5]]
  {
    var bad := (p: BodyPart) => p.status != "good";
    assert Filter(ps[5..], bad) == [ps[5]] by {
      assert ps[5..][1..] == ps[6..] && ps[6..][1..] == [];
    }
    assert Filter(ps[4..], bad) == [ps[5]] by {
      assert ps[4..][1..] == ps[5..];
    }
    assert Filter(ps[3..], bad) == [ps[5]] by {
      assert ps[3..][1..] == ps[4..];
    }
    assert Filter(ps[2..], bad) == [ps[5]] by {
      assert ps[2..][1..] == ps[3..];
    }
    assert Filter(ps, bad) == [ps[1], ps[5]] by {
      assert ps[1..][1..] == ps[2..];
    }
  }
}
