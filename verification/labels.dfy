/**
 * Which branches the plotter walks, in which order, and the display name each
 * one gets: the local head's branch is "My Branch", the branch at position k
 * after it is "Branch #k".
 */
module BranchLabels {
  import opened Wrappers
  import opened Blocks

  const MyBranchName: string := "My Branch"
  const NumberedPrefix: string := "Branch #"

  /** The decimal digit character for a value below ten. */
  function DigitChar(d: nat): (c: char)
    requires d < 10
    ensures '0' <= c <= '9'
  {
    (48 + d) as char
  }

  /** The value of a decimal digit character. */
  function DigitValue(c: char): int
  {
    c as int - 48
  }

  /** Python's `str(n)` for a natural number: its decimal digits, most significant first. */
  function Decimal(n: nat): (s: string)
    ensures |s| > 0
    ensures forall i :: 0 <= i < |s| ==> '0' <= s[i] <= '9'
    decreases n
  {
    if n < 10 then [DigitChar(n)] else Decimal(n / 10) + [DigitChar(n % 10)]
  }

  /** Reads a string of decimal digits back as a number. */
  function ParseDecimal(s: string): int
    decreases |s|
  {
    if |s| == 0 then 0 else 10 * ParseDecimal(s[..|s| - 1]) + DigitValue(s[|s| - 1])
  }

  /** Reading the decimal form of a number gives the number back. */
  lemma {:induction false} ParseDecimalOfDecimal(n: nat)
    ensures ParseDecimal(Decimal(n)) == n
    decreases n
  {
    var s := Decimal(n);
    if n >= 10 {
      ParseDecimalOfDecimal(n / 10);
      assert s[..|s| - 1] == Decimal(n / 10);
    }
  }

  /** The name of the branch at position `k` in the walking order. */
  function BranchName(k: nat): (name: string)
    ensures k == 0 ==> name == MyBranchName
    ensures k > 0 ==> |name| > |NumberedPrefix| && name[..|NumberedPrefix|] == NumberedPrefix
  {
    if k == 0 then MyBranchName else NumberedPrefix + Decimal(k)
  }

  /** Recovers the branch position from a branch name. */
  function BranchIndex(name: string): Option<int>
  {
    if name == MyBranchName then Some(0)
    else if |name| > |NumberedPrefix| && name[..|NumberedPrefix|] == NumberedPrefix
    then Some(ParseDecimal(name[|NumberedPrefix|..]))
    else None
  }

  /** Every branch name names exactly the position it was made from. */
  lemma BranchIndexOfBranchName(k: nat)
    ensures BranchIndex(BranchName(k)) == Some(k)
  {
    if k > 0 {
      var name := BranchName(k);
      assert name[0] == 'B';
      assert name != MyBranchName by { assert MyBranchName[0] == 'M'; }
      assert name[|NumberedPrefix|..] == Decimal(k);
      ParseDecimalOfDecimal(k);
    }
  }

  /** Two branches at different positions never share a name. */
  lemma BranchNameInjective(i: nat, j: nat)
    ensures BranchName(i) == BranchName(j) <==> i == j
  {
    BranchIndexOfBranchName(i);
    BranchIndexOfBranchName(j);
  }

  /** The head hashes other than the local head, in the order of `heads`. */
  function OtherHeads(heads: seq<Hash>, myHead: Hash): (r: seq<Hash>)
    ensures |r| <= |heads|
    ensures myHead !in r
    ensures forall h :: h in r <==> h in heads && h != myHead
    ensures myHead !in heads ==> r == heads
    decreases |heads|
  {
    if |heads| == 0 then []
    else (if heads[0] != myHead then [heads[0]] else []) + OtherHeads(heads[1..], myHead)
  }

  lemma {:induction false} OtherHeadsAppend(a: seq<Hash>, b: seq<Hash>, myHead: Hash)
    ensures OtherHeads(a + b, myHead) == OtherHeads(a, myHead) + OtherHeads(b, myHead)
    decreases |a|
  {
    if |a| == 0 {
      assert a + b == b;
    } else {
      assert (a + b)[0] == a[0] && (a + b)[1..] == a[1..] + b;
      OtherHeadsAppend(a[1..], b, myHead);
    }
  }

  /**
   * The other heads keep head-set order: removing the local head from the
   * middle of the head list leaves the heads before it, then those after it.
   */
  lemma OtherHeadsKeepsOrder(before: seq<Hash>, myHead: Hash, after: seq<Hash>)
    requires myHead !in before && myHead !in after
    ensures OtherHeads(before + [myHead] + after, myHead) == before + after
  {
    var none := OtherHeads([myHead], myHead);
    assert none == [] by {
      assert [myHead][1..] == [];
    }
    calc {
      OtherHeads(before + [myHead] + after, myHead);
      { OtherHeadsAppend(before + [myHead], after, myHead); }
      OtherHeads(before + [myHead], myHead) + OtherHeads(after, myHead);
      { OtherHeadsAppend(before, [myHead], myHead); }
      OtherHeads(before, myHead) + none + OtherHeads(after, myHead);
      before + after;
    }
  }

  /**
   * `all_branches`: the local head's block range first, then the range of each
   * other head in head order. `getBlockRange` stands for the ledger's
   * `get_block_range(range_end=...)`.
   */
  function AllBranches(heads: seq<Hash>, myHead: Hash, getBlockRange: Hash -> seq<Block>): (r: seq<seq<Block>>)
    ensures |r| == 1 + |OtherHeads(heads, myHead)|
    ensures r[0] == getBlockRange(myHead)
  {
    var others := OtherHeads(heads, myHead);
    [getBlockRange(myHead)] + seq(|others|, i requires 0 <= i < |others| => getBlockRange(others[i]))
  }

  /**
   * Branch labelling: the branch at position 0 comes from the local head and is
   * named "My Branch"; each branch at position k >= 1 comes from a head other
   * than the local one and is named "Branch #k", a name the local branch never
   * carries.
   */
  lemma BranchLabelling(heads: seq<Hash>, myHead: Hash, getBlockRange: Hash -> seq<Block>, k: nat)
    requires k < |AllBranches(heads, myHead, getBlockRange)|
    ensures k == 0 ==>
      && AllBranches(heads, myHead, getBlockRange)[k] == getBlockRange(myHead)
      && BranchName(k) == MyBranchName
    ensures k > 0 ==>
      var h := OtherHeads(heads, myHead)[k - 1];
      && h in heads && h != myHead
      && AllBranches(heads, myHead, getBlockRange)[k] == getBlockRange(h)
      && BranchName(k) == NumberedPrefix + Decimal(k)
      && BranchName(k) != MyBranchName
  {
    if k > 0 {
      BranchNameInjective(0, k);
    }
  }
}
