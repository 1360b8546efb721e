/**
  The synthetic record generator.  A `Util` instance hands out records with
  consecutive ids from a counter it owns, and fills the other columns with
  random text, a random date and a random number.
 */
module Util {
  import opened JavaLang
  import opened Persistence

  /** The characters random text is drawn from: 26 upper-case letters, a space,
      26 lower-case letters, a space and the digits 1 to 9 followed by 0 (one
      string in `Util.java`, written here in its five runs). */
  const Alphabet: string :=
    "ABCDEFGHIJKLMNOPQRSTUVWXYZ" + " " + "abcdefghijklmnopqrstuvwxyz" + " " + "1234567890"

  /** Default upper bounds (exclusive) on the generated lengths. */
  const MaxLengthUserName: int32 := 50
  const MaxLengthText: int32 := 280

  /** Letters, digits and the space. */
  predicate IsLetterDigitOrSpace(c: char)
  {
    ('A' <= c <= 'Z') || ('a' <= c <= 'z') || ('0' <= c <= '9') || c == ' '
  }

  /** The character at each position of the alphabet, by code point. */
  lemma AlphabetAt(i: int)
    requires 0 <= i < 64
    ensures |Alphabet| == 64
    ensures Alphabet[i] as int ==
      if i < 26 then 'A' as int + i
      else if i == 26 || i == 53 then ' ' as int
      else if i < 53 then 'a' as int + (i - 27)
      else if i < 63 then '1' as int + (i - 54)
      else '0' as int
  {
  }

  /** The alphabet holds 64 characters, and a character occurs in it exactly
      when it is an ASCII letter, a digit or a space. */
  lemma AlphabetIsLettersDigitsAndSpace()
    ensures |Alphabet| == 64
    ensures forall c :: c in Alphabet <==> IsLetterDigitOrSpace(c)
  {
    forall i | 0 <= i < |Alphabet|
      ensures IsLetterDigitOrSpace(Alphabet[i])
    {
      AlphabetAt(i);
    }
    forall c | IsLetterDigitOrSpace(c)
      ensures c in Alphabet
    {
      var i :=
        if 'A' <= c <= 'Z' then c as int - 'A' as int
        else if 'a' <= c <= 'z' then 27 + (c as int - 'a' as int)
        else if '1' <= c <= '9' then 54 + (c as int - '1' as int)
        else if c == '0' then 63
        else 26;
      AlphabetAt(i);
    }
  }

  /** A string `createRandomText(maxLength)` can return: its length is a value
      of the drawn target length and every character comes from the alphabet. */
  predicate IsRandomText(s: string, maxLength: int)
  {
    InDrawRange(maxLength, |s|) && forall i :: 0 <= i < |s| ==> s[i] in Alphabet
  }

  /** The date arguments `createRandomDate` can pass to `java.sql.Date`. */
  predicate IsRandomDate(d: Date)
  {
    1000 <= d.year <= 4999 && 1 <= d.month <= 12 && 1 <= d.day <= 28
  }

  /** The non-id columns of a record `createData` can produce. */
  predicate IsRandomRecord(r: BigData)
  {
    IsRandomText(r.userName, MaxLengthUserName) && IsRandomDate(r.createdAt)
    && IsRandomText(r.text, MaxLengthText) && 0 <= r.number < MaxInt
  }

  /** The records of `batch` carry the ids of the records numbered
      `issuedBefore + 1`, `issuedBefore + 2`, ... in the lifetime of one
      generator: record number `n` gets the `int` value of `n`. */
  predicate NumberedFrom(batch: seq<BigData>, issuedBefore: nat)
  {
    forall k :: 0 <= k < |batch| ==> batch[k].id == Wrap(issuedBefore + k + 1)
  }

  /** What a generated record promises in terms of the table's columns: a user
      name of fewer than 50 and a text of fewer than 280 characters, both made
      of letters, digits and spaces, and a number in [0, 2^31 - 1). */
  lemma RandomRecordColumns(r: BigData)
    requires IsRandomRecord(r)
    ensures |r.userName| < 50 && |r.text| < 280
    ensures forall i :: 0 <= i < |r.userName| ==> IsLetterDigitOrSpace(r.userName[i])
    ensures forall i :: 0 <= i < |r.text| ==> IsLetterDigitOrSpace(r.text[i])
    ensures 1000 <= r.createdAt.year <= 4999 && 1 <= r.createdAt.month <= 12
    ensures 1 <= r.createdAt.day <= 28
    ensures 0 <= r.number < 0x7fff_ffff
  {
    AlphabetIsLettersDigitsAndSpace();
  }

  /** While an instance has generated no more than `Integer.MAX_VALUE` records,
      the ids of a batch are `issuedBefore + 1, issuedBefore + 2, ...`:
      positive, strictly increasing and therefore pairwise distinct. */
  lemma BatchIdsAscending(batch: seq<BigData>, issuedBefore: nat)
    requires NumberedFrom(batch, issuedBefore)
    requires issuedBefore + |batch| <= MaxInt
    ensures forall k :: 0 <= k < |batch| ==> batch[k].id == issuedBefore + k + 1
    ensures forall i, j :: 0 <= i < j < |batch| ==> 0 < batch[i].id < batch[j].id
  {
    forall k | 0 <= k < |batch|
      ensures batch[k].id == issuedBefore + k + 1
    {
      WrapInRange(issuedBefore + k + 1);
    }
  }

  /** Two batches taken one after the other from one instance continue a single
      numbering, and, below `Integer.MAX_VALUE`, every id of the second is
      larger than every id of the first, so the two id ranges are disjoint. */
  lemma SuccessiveBatches(first: seq<BigData>, second: seq<BigData>, issuedBefore: nat)
    requires NumberedFrom(first, issuedBefore)
    requires NumberedFrom(second, issuedBefore + |first|)
    ensures NumberedFrom(first + second, issuedBefore)
    ensures issuedBefore + |first| + |second| <= MaxInt ==>
      forall i, j :: 0 <= i < |first| && 0 <= j < |second| ==> first[i].id < second[j].id
  {
    var both := first + second;
    forall k | 0 <= k < |both|
      ensures both[k].id == Wrap(issuedBefore + k + 1)
    {
      if k >= |first| {
        assert both[k] == second[k - |first|];
      }
    }
    if issuedBefore + |first| + |second| <= MaxInt {
      BatchIdsAscending(both, issuedBefore);
      forall i, j | 0 <= i < |first| && 0 <= j < |second|
        ensures first[i].id < second[j].id
      {
        assert both[i] == first[i] && both[|first| + j] == second[j];
      }
    }
  }

  /** The id counter is a Java `int`: the record numbered 2^31 gets
      `Integer.MIN_VALUE`, so ids are positive only for the first
      `Integer.MAX_VALUE` records of an instance. */
  lemma IdPastMaxIntIsNegative(batch: seq<BigData>, issuedBefore: nat)
    requires NumberedFrom(batch, issuedBefore)
    requires issuedBefore < 0x8000_0000 <= issuedBefore + |batch|
    ensures batch[0x7fff_ffff - issuedBefore].id == MinInt
  {
    WrapPastMaxInt();
  }

  /** Ids repeat once an instance has generated 2^32 records. */
  lemma IdsRepeatAfterFullCycle(batch: seq<BigData>, issuedBefore: nat, k: nat)
    requires NumberedFrom(batch, issuedBefore)
    requires k + 0x1_0000_0000 < |batch|
    ensures batch[k].id == batch[k + 0x1_0000_0000].id
  {
    WrapPeriodic(issuedBefore + k + 1);
  }

  class Util {
    /** The last id handed out; 0 before the first record. */
    var id: int32
    /** Number of records this instance has generated so far. */
    ghost var issued: nat

    /** The counter is never reset: it always holds the `int` value of the
        number of records generated so far. */
    ghost predicate Valid()
      reads this
    {
      id == Wrap(issued)
    }

    constructor ()
      ensures Valid() && id == 0 && issued == 0
    {
      id := 0;
      issued := 0;
    }

    /** A random `int` in [0, `Integer.MAX_VALUE`). */
    method CreateRandomInt() returns (r: int32)
      ensures 0 <= r < MaxInt
    {
      r := RandomScaled(MaxInt);
    }

    /** Random text: draws a target length from `maxLengthWord`, then appends
        one random alphabet character at a time until the target is reached.
        `target` is the drawn length, which the source keeps in a local. */
    method CreateRandomText(maxLengthWord: int32) returns (s: string, ghost target: int32)
      ensures InDrawRange(maxLengthWord, target)
      ensures |s| == if target > 0 then target else 0
      ensures IsRandomText(s, maxLengthWord)
      ensures maxLengthWord > 0 ==> |s| < maxLengthWord
      ensures maxLengthWord <= 0 ==> s == ""
    {
      var randomString: string := "";
      var randomLengthWord := RandomScaled(maxLengthWord);
      while |randomString| < randomLengthWord
        invariant randomLengthWord > 0 ==> |randomString| <= randomLengthWord
        invariant randomLengthWord <= 0 ==> randomString == ""
        invariant forall i :: 0 <= i < |randomString| ==> randomString[i] in Alphabet
        decreases randomLengthWord - |randomString|
      {
        var index := RandomScaled(|Alphabet|);
        randomString := randomString + [Alphabet[index]];
      }
      s := randomString;
      target := randomLengthWord;
    }

    /** A random date: year in [1000, 4999], month in [1, 12], day in [1, 28],
        drawn independently of each other. */
    method CreateRandomDate() returns (d: Date)
      ensures IsRandomDate(d)
    {
      var randomYear := RandomScaled(4000);
      var randomMonth := RandomScaled(12);
      var randomDay := RandomScaled(28);
      d := Date(randomYear + 1000, randomMonth + 1, randomDay + 1);
    }

    /** Generates `amountDataset` records (none when it is not positive).  Each
        record takes the next value of the counter, so the `k`-th record of
        the batch gets `old(id) + k + 1` in Java `int` arithmetic, and the
        counter ends `amountDataset` further on. */
    method CreateData(amountDataset: int32) returns (dataset: seq<BigData>)
      requires Valid()
      modifies this
      ensures Valid()
      ensures |dataset| == if amountDataset > 0 then amountDataset else 0
      ensures amountDataset <= 0 ==> dataset == [] && id == old(id)
      ensures issued == old(issued) + |dataset|
      ensures id == Wrap(old(id) + |dataset|)
      ensures forall k :: 0 <= k < |dataset| ==> dataset[k].id == Wrap(old(id) + k + 1)
      ensures NumberedFrom(dataset, old(issued))
      ensures forall k :: 0 <= k < |dataset| ==> IsRandomRecord(dataset[k])
    {
      dataset := [];
      var i: int32 := 0;
      while i < amountDataset
        invariant 0 <= i <= (if amountDataset > 0 then amountDataset else 0)
        invariant |dataset| == i
        invariant issued == old(issued) + i
        invariant Valid()
        invariant id == Wrap(old(id) + i)
        invariant forall k :: 0 <= k < i ==> dataset[k].id == Wrap(old(id) + k + 1)
        invariant NumberedFrom(dataset, old(issued))
        invariant forall k :: 0 <= k < i ==> IsRandomRecord(dataset[k])
      {
        WrapAddCongruent(old(id) + i, 1);
        WrapAddCongruent(issued, 1);
        id := Wrap(id + 1);
        issued := issued + 1;
        var userName, _ := CreateRandomText(MaxLengthUserName);
        var createdAt := CreateRandomDate();
        var text, _ := CreateRandomText(MaxLengthText);
        var number := CreateRandomInt();
        dataset := dataset + [BigData(id, userName, createdAt, text, number)];
        i := i + 1;
      }
    }
  }
}
