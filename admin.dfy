/** The admin dashboard's two status mappings: a badge variant and a
    Bulgarian label for the status of an author or an artwork. */
module AdminPanel {

  /** The statuses the switches name: three of authors, three of artworks. */
  const KnownStatuses: seq<string> := ["active", "pending", "inactive", "published", "review", "draft"]

  /** The labels of the known statuses, in the same order. */
  const StatusLabels: seq<string> := ["Активен", "Чакащ", "Неактивен", "Публикувано", "На преглед", "Чернова"]

  /** `getStatusColor`: the badge variant of a status. Live statuses get the
      solid variant, waiting ones the secondary one, everything else (the
      two dormant statuses and anything unrecognised) the outline. */
  function StatusColor(status: string): (variant: string)
    ensures variant == "default" || variant == "secondary" || variant == "outline"
    ensures variant == "default" <==> status == "active" || status == "published"
    ensures variant == "secondary" <==> status == "pending" || status == "review"
    ensures variant == "outline" <==> status !in ["active", "published", "pending", "review"]
  {
    match status
    case "active" => "default"
    case "published" => "default"
    case "pending" => "secondary"
    case "review" => "secondary"
    case "inactive" => "outline"
    case "draft" => "outline"
    case _ => "outline"
  }

  /** `getStatusText`: the display label of a status. A known status gets its
      fixed label, which differs from the status itself; any other string is
      shown as it is. */
  function StatusText(status: string): (text: string)
    ensures text == status <==> status !in KnownStatuses
    ensures forall i :: 0 <= i < |KnownStatuses| && status == KnownStatuses[i] ==> text == StatusLabels[i]
  {
    match status
    case "active" => "Активен"
    case "pending" => "Чакащ"
    case "inactive" => "Неактивен"
    case "published" => "Публикувано"
    case "review" => "На преглед"
    case "draft" => "Чернова"
    case _ => status
  }

  /** The six labels are pairwise distinct, so the label of a known status
      identifies it. */
  lemma StatusTextInjectiveOnKnown(a: string, b: string)
    requires a in KnownStatuses && b in KnownStatuses
    requires StatusText(a) == StatusText(b)
    ensures a == b
  {
  }

  /** Over all strings the labelling is not injective: an unrecognised
      status that happens to equal a label collides with the status that
      label belongs to. */
  lemma StatusTextCollides()
    ensures exists a: string, b: string :: a != b && StatusText(a) == StatusText(b)
  {
    assert "Активен" !in KnownStatuses;
    assert StatusText("active") == StatusText("Активен");
  }
}
