/**
  Start-up tables: where each core's doorbell ring begins, and how the clients'
  slots are dealt out to the two poll stages.
 */
module Boot {
  import opened Division
  import opened Scoring
  import opened Pipeline

  const SLOT_BYTES: nat := 2048
  const HOST_BYTES: nat := 0x0400_0000
  const METADATA_BYTES: nat := 256
  const RING_BYTES: nat := 256 * 64

  /** Ring start addresses, in words, computed by adding up byte strides. */
  method RingMap(slotNum: nat, clientNum: nat, cfg: Config) returns (starts: array<nat>)
    requires cfg.Valid() && cfg.base == (SLOT_BYTES * (slotNum * clientNum) + HOST_BYTES) / 4
    ensures fresh(starts) && starts.Length == MAX_CORE
    ensures forall c :: 0 <= c < cfg.cores ==> starts[c] == cfg.RingStart(c)
  {
    starts := new nat[MAX_CORE](_ => 0);
    var address := SLOT_BYTES * (slotNum * clientNum) + HOST_BYTES;
    for i := 0 to cfg.cores
      invariant address == 4 * cfg.base + (RING_BYTES + METADATA_BYTES) * i
      invariant forall c :: 0 <= c < i ==> starts[c] == cfg.RingStart(c)
    {
      starts[i] := (address + METADATA_BYTES) / 4;
      address := address + RING_BYTES + METADATA_BYTES;
    }
  }

  // ------------------------------------------------------------ the split of the slots

  /** Poll stage and table index that slot j of client i is entered at. */
  datatype Place = Place(lane: nat, index: nat)

  function PlaceOf(clients: nat, slotNum: nat, i: nat, j: nat): Place
    requires i < clients && j < slotNum
  {
    if i * 2 < clients then Place(0, i * slotNum + j) else Place(1, (i - clients / 2) * slotNum + j)
  }

  /** Each poll stage cycles over the first half of the total number of slots. */
  ghost predicate AllPolled(clients: nat, slotNum: nat) {
    forall i, j :: 0 <= i < clients && 0 <= j < slotNum ==>
      PlaceOf(clients, slotNum, i, j).index < (clients * slotNum) / 2
  }

  lemma RowFits(i: nat, h: nat, j: nat, n: nat)
    requires i < h && j < n
    ensures i * n + j < h * n
  {
    assert (i + 1) * n <= h * n;
    assert (i + 1) * n == i * n + n;
  }

  lemma HalfOfProduct(h: nat, r: nat, n: nat)
    requires r < 2
    ensures ((2 * h + r) * n) / 2 == h * n + (r * n) / 2
  {
    assert (2 * h + r) * n == 2 * (h * n) + r * n;
  }

  lemma EvenCovers(h: nat, slotNum: nat, i: nat, j: nat)
    requires i < 2 * h && j < slotNum
    ensures PlaceOf(2 * h, slotNum, i, j).index < (2 * h * slotNum) / 2
  {
    HalfOfProduct(h, 0, slotNum);
    if i < h {
      RowFits(i, h, j, slotNum);
    } else {
      RowFits(i - h, h, j, slotNum);
    }
  }

  lemma OddMisses(h: nat, slotNum: nat)
    requires 0 < slotNum
    ensures PlaceOf(2 * h + 1, slotNum, h, slotNum - 1).index >= ((2 * h + 1) * slotNum) / 2
  {
    HalfOfProduct(h, 1, slotNum);
  }

  /** Every slot of every client is polled if and only if the number of clients is even. */
  lemma SplitCovers(clients: nat, slotNum: nat)
    requires 0 < clients && 0 < slotNum
    ensures AllPolled(clients, slotNum) <==> clients % 2 == 0
  {
    var h := clients / 2;
    if clients == 2 * h {
      forall i, j | 0 <= i < clients && 0 <= j < slotNum
        ensures PlaceOf(clients, slotNum, i, j).index < (clients * slotNum) / 2
      {
        EvenCovers(h, slotNum, i, j);
      }
    } else {
      assert clients == 2 * h + 1;
      OddMisses(h, slotNum);
    }
  }

  /** Two slots never share a place. */
  lemma PlacesDiffer(clients: nat, slotNum: nat, i: nat, j: nat, i': nat, j': nat)
    requires i < clients && i' < clients && j < slotNum && j' < slotNum
    requires PlaceOf(clients, slotNum, i, j) == PlaceOf(clients, slotNum, i', j')
    ensures i == i' && j == j'
  {
    var h := clients / 2;
    if i * 2 < clients {
      DigitsUnique(i, j, i', j', slotNum);
    } else {
      DigitsUnique(i - h, j, i' - h, j', slotNum);
    }
  }
}
