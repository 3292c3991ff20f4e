/**
 * Coaching suggestions and the fixed pool of three canned ones the dashboard
 * draws from. The two calls to Math.random() of the one-second tick are
 * lifted into parameters: `roll` decides whether a suggestion is added at all
 * (`roll < 0.1`), `pick` chooses the template (`Math.floor(pick * 3)`); both
 * are values in [0, 1), as Math.random() returns.
 */
module Suggestions {

  datatype Kind = Tone | Pace | Empathy | Solution

  datatype Priority = High | Medium | Low

  datatype Suggestion = Suggestion(id: string, kind: Kind, message: string, priority: Priority, timestamp: string)

  /** The string a kind has in the interface type ("tone" | "pace" | "empathy" | "solution"). */
  function KindName(k: Kind): string
  {
    match k
    case Tone => "tone"
    case Pace => "pace"
    case Empathy => "empathy"
    case Solution => "solution"
  }

  /** The string a priority has in the interface type ("high" | "medium" | "low"). */
  function PriorityName(p: Priority): string
  {
    match p
    case High => "high"
    case Medium => "medium"
    case Low => "low"
  }

  /**
   * mockSuggestions. Their timestamps are the render time of the component,
   * which no drawn suggestion ever keeps (see StampKeepsOnlyTemplateContent),
   * so the model leaves them empty.
   */
  const MockSuggestions: seq<Suggestion> := [
    Suggestion("1", Tone, "Consider using a warmer tone to build rapport with the customer", Medium, ""),
    Suggestion("2", Pace, "Slow down slightly - customer may need time to process information", High, ""),
    Suggestion("3", Empathy, "Great job acknowledging the customer's frustration", Low, "")
  ]

  /** A tick adds a suggestion when its roll is below this threshold. */
  const HitChance: real := 0.1

  /** Math.floor(pick * mockSuggestions.length): each template owns a third of [0, 1). */
  function TemplateIndex(pick: real): (i: nat)
    requires 0.0 <= pick < 1.0
    ensures i < |MockSuggestions|
    ensures i as real / 3.0 <= pick < (i + 1) as real / 3.0
  {
    (pick * 3.0).Floor
  }

  /** `{ ...template, id, timestamp }`: a copy of the template with a fresh id and timestamp. */
  function Stamp(template: Suggestion, id: string, timestamp: string): (s: Suggestion)
    ensures s.kind == template.kind && s.message == template.message && s.priority == template.priority
    ensures s.id == id && s.timestamp == timestamp
  {
    template.(id := id, timestamp := timestamp)
  }

  /** The suggestion a successful draw adds to the feed: the content of one of the three templates, freshly stamped. */
  function Draw(pick: real, id: string, timestamp: string): (s: Suggestion)
    requires 0.0 <= pick < 1.0
    ensures exists i :: (0 <= i < |MockSuggestions| &&
                         s == MockSuggestions[i].(id := id, timestamp := timestamp))
  {
    Stamp(MockSuggestions[TemplateIndex(pick)], id, timestamp)
  }

  /** A drawn suggestion has the type, message and priority of the chosen template and the given id and timestamp. */
  lemma DrawCopiesTemplate(pick: real, id: string, timestamp: string)
    requires 0.0 <= pick < 1.0
    ensures var s, t := Draw(pick, id, timestamp), MockSuggestions[TemplateIndex(pick)];
      s.kind == t.kind && s.message == t.message && s.priority == t.priority &&
      s.id == id && s.timestamp == timestamp
  {
  }

  /** Only the template's type, message and priority reach the feed; its own id and timestamp never do. */
  lemma StampKeepsOnlyTemplateContent(t1: Suggestion, t2: Suggestion, id: string, timestamp: string)
    requires t1.kind == t2.kind && t1.message == t2.message && t1.priority == t2.priority
    ensures Stamp(t1, id, timestamp) == Stamp(t2, id, timestamp)
  {
  }

  /** Every one of the three templates can be drawn. */
  lemma EveryTemplateDrawable(i: nat)
    requires i < |MockSuggestions|
    ensures TemplateIndex(i as real / 3.0) == i
  {
    assert i as real / 3.0 * 3.0 == i as real;
  }

  /** The three templates are distinct, so the chosen index determines the added suggestion's content. */
  lemma DrawDeterminedByIndex(p1: real, p2: real, id: string, timestamp: string)
    requires 0.0 <= p1 < 1.0 && 0.0 <= p2 < 1.0
    ensures Draw(p1, id, timestamp) == Draw(p2, id, timestamp) <==> TemplateIndex(p1) == TemplateIndex(p2)
  {
  }
}
