/** The FAQ accordion (components/FAQSection.tsx): five questions, at most
    one of them open, opened and closed by clicking its header. */
module Faq {
  import opened Wrappers

  datatype FaqItem = FaqItem(id: int, questionKey: string, answerKey: string)

  const FaqItems: seq<FaqItem> := [
    FaqItem(1, "faq.q1", "faq.a1"),
    FaqItem(2, "faq.q2", "faq.a2"),
    FaqItem(3, "faq.q3", "faq.a3"),
    FaqItem(4, "faq.q4", "faq.a4"),
    FaqItem(5, "faq.q5", "faq.a5")
  ]

  /** `openId === id ? null : id`: the clicked item opens, unless it was the
      open one, which closes. */
  function Toggle(openId: Option<int>, id: int): (r: Option<int>)
    ensures openId == Some(id) ==> r.None?
    ensures openId != Some(id) ==> r == Some(id)
  {
    if openId == Some(id) then None else Some(id)
  }

  /** The answers on screen: the items whose id is the open one. */
  function OpenItems(openId: Option<int>): (r: seq<FaqItem>)
    ensures |r| <= 1
    ensures openId.None? ==> r == []
    ensures forall k :: 0 <= k < |FaqItems| && openId == Some(FaqItems[k].id) ==> r == [FaqItems[k]]
  {
    if openId.Some? && 1 <= openId.value <= 5 then [FaqItems[openId.value - 1]] else []
  }

  /** Clicking the same item twice restores the state when nothing or that
      item was open, and closes everything when another item was open; after
      a click either nothing is open or exactly the clicked item. */
  lemma ToggleTwice(openId: Option<int>, id: int)
    ensures Toggle(Toggle(openId, id), id) == (if openId == Some(id) then openId else None)
    ensures openId.None? || openId == Some(id) ==> Toggle(Toggle(openId, id), id) == openId
    ensures Toggle(openId, id).None? || Toggle(openId, id) == Some(id)
  {
  }

  class Accordion {
    var openId: Option<int>

    constructor()
      ensures openId.None?
    {
      openId := None;
    }

    /** The click handler of item `id`. */
    method Click(id: int)
      modifies this
      ensures openId == Toggle(old(openId), id)
    {
      openId := if openId == Some(id) then None else Some(id);
    }
  }
}
