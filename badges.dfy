/**
 * The two lookups the feed uses when it renders an entry: the badge class of
 * a priority and the icon of a suggestion type. Both take any string and fall
 * back to a default for strings they do not know.
 */
module Badges {
  import opened Suggestions

  const HighClass := "bg-destructive text-destructive-foreground"
  const MediumClass := "bg-secondary text-secondary-foreground"
  const LowClass := "bg-muted text-muted-foreground"
  const DefaultClass := "bg-muted text-muted-foreground"

  const ToneIcon := "\U{1F3B5}"
  const PaceIcon := "\U{23F1}\U{FE0F}"
  const EmpathyIcon := "\U{1F49D}"
  const SolutionIcon := "\U{1F4A1}"
  const DefaultIcon := "\U{1F4AC}"

  /** getPriorityColor */
  function PriorityColor(priority: string): (cls: string)
    ensures cls == DefaultClass <==> priority != "high" && priority != "medium"
  {
    if priority == "high" then HighClass
    else if priority == "medium" then MediumClass
    else if priority == "low" then LowClass
    else DefaultClass
  }

  /** getTypeIcon */
  function TypeIcon(kind: string): (icon: string)
    ensures icon == DefaultIcon <==>
      kind != "tone" && kind != "pace" && kind != "empathy" && kind != "solution"
  {
    if kind == "tone" then ToneIcon
    else if kind == "pace" then PaceIcon
    else if kind == "empathy" then EmpathyIcon
    else if kind == "solution" then SolutionIcon
    else DefaultIcon
  }

  /** Any string outside the three priorities gets the default class. */
  lemma UnknownPriorityIsDefault(priority: string)
    requires priority != "high" && priority != "medium" && priority != "low"
    ensures PriorityColor(priority) == DefaultClass
  {
  }

  /**
   * The default class is exactly the class of "low": a badge is muted if and
   * only if its priority is low or unknown, and the three known priorities
   * get three different classes.
   */
  lemma PriorityColorClasses(priority: string)
    ensures PriorityColor(priority) == DefaultClass <==> priority != "high" && priority != "medium"
    ensures PriorityColor(PriorityName(High)) != PriorityColor(PriorityName(Medium))
    ensures PriorityColor(PriorityName(Medium)) != PriorityColor(PriorityName(Low))
    ensures PriorityColor(PriorityName(High)) != PriorityColor(PriorityName(Low))
  {
  }

  /** Any string outside the four types gets the speech-bubble icon. */
  lemma UnknownTypeIsDefault(kind: string)
    requires kind != "tone" && kind != "pace" && kind != "empathy" && kind != "solution"
    ensures TypeIcon(kind) == DefaultIcon
  {
  }

  /** Every suggestion type has its own icon, and none of them is the fallback icon. */
  lemma TypeIconIdentifiesKind(k1: Kind, k2: Kind)
    ensures TypeIcon(KindName(k1)) != DefaultIcon
    ensures TypeIcon(KindName(k1)) == TypeIcon(KindName(k2)) <==> k1 == k2
  {
  }
}
