/**
 * The five order-status labels and their rank. The source keeps the labels
 * as strings in the list `ValidStatus` and ranks a status by its position in
 * that list (`IndexOf`); here a status is a datatype whose rank is proved to
 * be that position.
 */
module OrderStatus {
  import opened Common

  datatype Status = Pending | Processing | Delivering | Delivered | Canceled

  const PENDING: string := "Pending"
  const PROCESSING: string := "Processing"
  const DELIVERING: string := "Delivering"
  const DELIVERED: string := "Delivered"
  const CANCELED: string := "Canceled"

  /** The recognised labels, in rank order. */
  const ValidStatus: seq<string> := ["Pending", "Processing", "Delivering", "Delivered", "Canceled"]

  /** The label a status is stored under. */
  function Label(s: Status): string
  {
    match s
    case Pending => PENDING
    case Processing => PROCESSING
    case Delivering => DELIVERING
    case Delivered => DELIVERED
    case Canceled => CANCELED
  }

  /** `List<string>.IndexOf`: the first position holding `x`, or -1. */
  function IndexOf(list: seq<string>, x: string): (r: int)
    ensures -1 <= r < |list|
    ensures r >= 0 ==> list[r] == x && forall j :: 0 <= j < r ==> list[j] != x
    ensures r == -1 <==> x !in list
    decreases |list|
  {
    if list == [] then -1
    else if list[0] == x then 0
    else
      var k := IndexOf(list[1..], x);
      if k == -1 then -1 else k + 1
  }

  /** The rank of a status: its position in `ValidStatus`. */
  function Rank(s: Status): (r: nat)
    ensures r == IndexOf(ValidStatus, Label(s))
  {
    match s
    case Pending => 0
    case Processing => 1
    case Delivering => 2
    case Delivered => 3
    case Canceled => 4
  }

  /** The status a label names, or `None` for a label outside `ValidStatus`. */
  function Parse(text: string): (r: Option<Status>)
    ensures r.Some? <==> text in ValidStatus
    ensures r.Some? ==> Label(r.value) == text
  {
    if text == PENDING then Some(Pending)
    else if text == PROCESSING then Some(Processing)
    else if text == DELIVERING then Some(Delivering)
    else if text == DELIVERED then Some(Delivered)
    else if text == CANCELED then Some(Canceled)
    else None
  }

  /**
   * `ValidStatus` holds exactly the five named labels, each once, in the
   * order Pending, Processing, Delivering, Delivered, Canceled.
   */
  lemma ValidStatusLists()
    ensures ValidStatus == [PENDING, PROCESSING, DELIVERING, DELIVERED, CANCELED]
    ensures forall i, j :: 0 <= i < j < |ValidStatus| ==> ValidStatus[i] != ValidStatus[j]
    ensures forall s: Status :: Label(s) in ValidStatus
  {
  }

  /** The ranks are strictly increasing along the lifecycle. */
  lemma RanksIncrease()
    ensures Rank(Pending) == 0 && Rank(Processing) == 1 && Rank(Delivering) == 2
    ensures Rank(Delivered) == 3 && Rank(Canceled) == 4
  {
  }

  /** Equal rank means equal status: `IndexOf` is injective on the labels. */
  lemma RankInjective(a: Status, b: Status)
    requires Rank(a) == Rank(b)
    ensures a == b
  {
  }

  /** A stored status parses back to itself. */
  lemma ParseLabel(s: Status)
    ensures Parse(Label(s)) == Some(s)
  {
  }
}
