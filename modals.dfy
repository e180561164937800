/**
 * The modals appended to the page by createModal (main.js:543-560) and removed by
 * closeModal (main.js:562-567). A modal is identified by the element createModal made.
 */
module Modals {

  /** A displayed modal; its HTML body is not modelled. */
  datatype Modal = Modal(id: nat, title: string)

  /** The ids on display are pairwise distinct and all below next, the id the next modal gets. */
  ghost predicate ModalsValid(displayed: seq<Modal>, next: nat) {
    && (forall i :: 0 <= i < |displayed| ==> displayed[i].id < next)
    && (forall i, j :: 0 <= i < j < |displayed| ==> displayed[i].id != displayed[j].id)
  }

  predicate IsDisplayed(displayed: seq<Modal>, id: nat) {
    exists i :: 0 <= i < |displayed| && displayed[i].id == id
  }

  /** `element.remove()`: the page without the modal id, the others in their order. */
  function RemoveById(displayed: seq<Modal>, id: nat): (r: seq<Modal>)
    ensures |r| <= |displayed|
    ensures forall m :: m in r <==> m in displayed && m.id != id
    ensures !IsDisplayed(displayed, id) ==> r == displayed
  {
    if displayed == [] then []
    else if displayed[0].id == id then RemoveById(displayed[1..], id)
    else [displayed[0]] + RemoveById(displayed[1..], id)
  }

  /** Ids distinct on a page are distinct on the page without its first modal. */
  lemma DistinctTail(displayed: seq<Modal>)
    requires displayed != []
    requires forall i, j :: 0 <= i < j < |displayed| ==> displayed[i].id != displayed[j].id
    ensures forall i, j :: 0 <= i < j < |displayed| - 1 ==> displayed[1..][i].id != displayed[1..][j].id
  {
    forall i, j | 0 <= i < j < |displayed| - 1 ensures displayed[1..][i].id != displayed[1..][j].id {
      assert displayed[1..][i] == displayed[i + 1] && displayed[1..][j] == displayed[j + 1];
    }
  }

  /** Removing the first modal of a page of distinct ids leaves the rest of the page. */
  lemma RemoveFirst(displayed: seq<Modal>)
    requires displayed != []
    requires forall i, j :: 0 <= i < j < |displayed| ==> displayed[i].id != displayed[j].id
    ensures RemoveById(displayed, displayed[0].id) == displayed[1..]
  {
    var rest := displayed[1..];
    assert !IsDisplayed(rest, displayed[0].id) by {
      forall i | 0 <= i < |rest| ensures rest[i].id != displayed[0].id {
        assert rest[i] == displayed[i + 1];
      }
    }
  }

  /** Removing the modal at position k from a page of distinct ids leaves the others in their order. */
  lemma {:induction false} RemoveAt(displayed: seq<Modal>, id: nat, k: nat)
    requires forall i, j :: 0 <= i < j < |displayed| ==> displayed[i].id != displayed[j].id
    requires k < |displayed| && displayed[k].id == id
    ensures RemoveById(displayed, id) == displayed[..k] + displayed[k + 1..]
  {
    var rest := displayed[1..];
    if k == 0 {
      RemoveFirst(displayed);
      assert displayed[..0] + rest == rest;
    } else {
      assert displayed[0].id != id;
      assert rest[k - 1] == displayed[k];
      DistinctTail(displayed);
      RemoveAt(rest, id, k - 1);
      assert RemoveById(displayed, id) == [displayed[0]] + RemoveById(rest, id);
      ConsWithout(displayed, k);
    }
  }

  /** Dropping position k - 1 of the tail and putting the head back drops position k. */
  lemma ConsWithout<T>(s: seq<T>, k: nat)
    requires 0 < k < |s|
    ensures [s[0]] + (s[1..][..k - 1] + s[1..][k..]) == s[..k] + s[k + 1..]
  {
    assert s[1..][..k - 1] == s[1..k] && s[1..][k..] == s[k + 1..];
    assert [s[0]] + s[1..k] == s[..k];
  }

  /**
   * Removing a displayed modal from a page of distinct ids takes exactly that one element
   * away and keeps the others in their stacking order.
   */
  lemma RemoveDisplayedTakesOne(displayed: seq<Modal>, id: nat)
    requires forall i, j :: 0 <= i < j < |displayed| ==> displayed[i].id != displayed[j].id
    requires IsDisplayed(displayed, id)
    ensures |RemoveById(displayed, id)| == |displayed| - 1
    ensures exists k :: 0 <= k < |displayed| && displayed[k].id == id
                        && RemoveById(displayed, id) == displayed[..k] + displayed[k + 1..]
  {
    var k :| 0 <= k < |displayed| && displayed[k].id == id;
    RemoveAt(displayed, id, k);
  }

  /** The remaining page keeps distinct ids below next. */
  lemma {:induction false} RemoveKeepsValid(displayed: seq<Modal>, id: nat, next: nat)
    requires ModalsValid(displayed, next)
    ensures ModalsValid(RemoveById(displayed, id), next)
  {
    if displayed != [] {
      RemoveKeepsValid(displayed[1..], id, next);
      var rest := RemoveById(displayed[1..], id);
      forall i | 0 <= i < |rest| ensures rest[i].id != displayed[0].id {
        assert rest[i] in displayed[1..];
      }
    }
  }
}
