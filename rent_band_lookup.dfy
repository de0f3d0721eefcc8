/** The band labels of the rent normaliser, read back by the rent analysis with its own
  * conversion table: no label is a key of the table, so each is read by the price-band formats. */
module RentBandLookup {
  import opened Wrappers
  import opened JsText
  import opened RentAnalytics
  import opened RentNormalizer
  import opened RentTable

  /** The length and the first, second and tenth characters of a text (`?` where there is none):
    * enough to tell every key of the conversion table from every band label. */
  function Print(s: string): (nat, char, char, char) {
    (|s|, if |s| > 0 then s[0] else '?', if |s| > 1 then s[1] else '?', if |s| > 9 then s[9] else '?')
  }

  /** The prints of the twenty band labels, in band order. */
  const LabelPrints: seq<(nat, char, char, char)> := [
    (8, '~', '5', '?'),
    (14, '5', '1', ','),
    (15, '7', '6', '0'),
    (16, '1', '0', '2'),
    (16, '1', '2', '5'),
    (16, '1', '5', '7'),
    (16, '1', '7', '0'),
    (16, '2', '0', '2'),
    (16, '2', '2', '5'),
    (16, '2', '5', '7'),
    (16, '2', '7', '0'),
    (16, '3', '0', '2'),
    (16, '3', '2', '5'),
    (16, '3', '5', '7'),
    (16, '3', '7', '0'),
    (16, '4', '0', '2'),
    (16, '4', '2', '5'),
    (16, '4', '5', '7'),
    (16, '4', '7', '0'),
    (9, '5', '1', '?')
  ]

  /** No key from position `i` on has the print of a band label: a check that can be unfolded
    * one entry at a time. */
  predicate NoLabelFrom(table: seq<(string, RentBand)>, i: nat)
    decreases |table| - i
  {
    i >= |table| || (Print(table[i].0) !in LabelPrints && NoLabelFrom(table, i + 1))
  }

  /** No key has the print of a band label. */
  ghost predicate NoLabelKey(table: seq<(string, RentBand)>) {
    forall i :: 0 <= i < |table| ==> Print(table[i].0) !in LabelPrints
  }

  lemma {:induction false} NoLabelFromAll(table: seq<(string, RentBand)>, i: nat)
    requires NoLabelFrom(table, i)
    ensures forall k :: i <= k < |table| ==> Print(table[k].0) !in LabelPrints
    decreases |table| - i
  {
    if i < |table| {
      NoLabelFromAll(table, i + 1);
    }
  }

  lemma NoLabelKeyAppend(a: seq<(string, RentBand)>, b: seq<(string, RentBand)>)
    requires NoLabelKey(a) && NoLabelKey(b)
    ensures NoLabelKey(a + b)
  {
    forall i | 0 <= i < |a + b|
      ensures Print((a + b)[i].0) !in LabelPrints
    {
      if i >= |a| {
        assert (a + b)[i] == b[i - |a|];
      }
    }
  }

  lemma Entries1HaveNoLabel()
    ensures NoLabelKey(Entries1)
  {
    Entries1TailHasNoLabel();
    assert NoLabelFrom(Entries1, 5);
    assert NoLabelFrom(Entries1, 4);
    assert NoLabelFrom(Entries1, 3);
    assert NoLabelFrom(Entries1, 2);
    assert NoLabelFrom(Entries1, 1);
    assert NoLabelFrom(Entries1, 0);
    NoLabelFromAll(Entries1, 0);
  }

  lemma Entries1TailHasNoLabel()
    ensures NoLabelFrom(Entries1, 6)
  {
    assert NoLabelFrom(Entries1, 11);
    assert NoLabelFrom(Entries1, 10);
    assert NoLabelFrom(Entries1, 9);
    assert NoLabelFrom(Entries1, 8);
    assert NoLabelFrom(Entries1, 7);
    assert NoLabelFrom(Entries1, 6);
  }

  lemma Entries2HaveNoLabel()
    ensures NoLabelKey(Entries2)
  {
    Entries2TailHasNoLabel();
    assert NoLabelFrom(Entries2, 5);
    assert NoLabelFrom(Entries2, 4);
    assert NoLabelFrom(Entries2, 3);
    assert NoLabelFrom(Entries2, 2);
    assert NoLabelFrom(Entries2, 1);
    assert NoLabelFrom(Entries2, 0);
    NoLabelFromAll(Entries2, 0);
  }

  lemma Entries2TailHasNoLabel()
    ensures NoLabelFrom(Entries2, 6)
  {
    assert NoLabelFrom(Entries2, 11);
    assert NoLabelFrom(Entries2, 10);
    assert NoLabelFrom(Entries2, 9);
    assert NoLabelFrom(Entries2, 8);
    assert NoLabelFrom(Entries2, 7);
    assert NoLabelFrom(Entries2, 6);
  }

  lemma Entries3HaveNoLabel()
    ensures NoLabelKey(Entries3)
  {
    Entries3TailHasNoLabel();
    assert NoLabelFrom(Entries3, 5);
    assert NoLabelFrom(Entries3, 4);
    assert NoLabelFrom(Entries3, 3);
    assert NoLabelFrom(Entries3, 2);
    assert NoLabelFrom(Entries3, 1);
    assert NoLabelFrom(Entries3, 0);
    NoLabelFromAll(Entries3, 0);
  }

  lemma Entries3TailHasNoLabel()
    ensures NoLabelFrom(Entries3, 6)
  {
    assert NoLabelFrom(Entries3, 11);
    assert NoLabelFrom(Entries3, 10);
    assert NoLabelFrom(Entries3, 9);
    assert NoLabelFrom(Entries3, 8);
    assert NoLabelFrom(Entries3, 7);
    assert NoLabelFrom(Entries3, 6);
  }

  lemma Entries4HaveNoLabel()
    ensures NoLabelKey(Entries4)
  {
    Entries4TailHasNoLabel();
    assert NoLabelFrom(Entries4, 5);
    assert NoLabelFrom(Entries4, 4);
    assert NoLabelFrom(Entries4, 3);
    assert NoLabelFrom(Entries4, 2);
    assert NoLabelFrom(Entries4, 1);
    assert NoLabelFrom(Entries4, 0);
    NoLabelFromAll(Entries4, 0);
  }

  lemma Entries4TailHasNoLabel()
    ensures NoLabelFrom(Entries4, 6)
  {
    assert NoLabelFrom(Entries4, 11);
    assert NoLabelFrom(Entries4, 10);
    assert NoLabelFrom(Entries4, 9);
    assert NoLabelFrom(Entries4, 8);
    assert NoLabelFrom(Entries4, 7);
    assert NoLabelFrom(Entries4, 6);
  }

  lemma Entries5HaveNoLabel()
    ensures NoLabelKey(Entries5)
  {
    Entries5TailHasNoLabel();
    assert NoLabelFrom(Entries5, 5);
    assert NoLabelFrom(Entries5, 4);
    assert NoLabelFrom(Entries5, 3);
    assert NoLabelFrom(Entries5, 2);
    assert NoLabelFrom(Entries5, 1);
    assert NoLabelFrom(Entries5, 0);
    NoLabelFromAll(Entries5, 0);
  }

  lemma Entries5TailHasNoLabel()
    ensures NoLabelFrom(Entries5, 6)
  {
    assert NoLabelFrom(Entries5, 11);
    assert NoLabelFrom(Entries5, 10);
    assert NoLabelFrom(Entries5, 9);
    assert NoLabelFrom(Entries5, 8);
    assert NoLabelFrom(Entries5, 7);
    assert NoLabelFrom(Entries5, 6);
  }

  lemma Entries6HaveNoLabel()
    ensures NoLabelKey(Entries6)
  {
    Entries6TailHasNoLabel();
    assert NoLabelFrom(Entries6, 5);
    assert NoLabelFrom(Entries6, 4);
    assert NoLabelFrom(Entries6, 3);
    assert NoLabelFrom(Entries6, 2);
    assert NoLabelFrom(Entries6, 1);
    assert NoLabelFrom(Entries6, 0);
    NoLabelFromAll(Entries6, 0);
  }

  lemma Entries6TailHasNoLabel()
    ensures NoLabelFrom(Entries6, 6)
  {
    assert NoLabelFrom(Entries6, 11);
    assert NoLabelFrom(Entries6, 10);
    assert NoLabelFrom(Entries6, 9);
    assert NoLabelFrom(Entries6, 8);
    assert NoLabelFrom(Entries6, 7);
    assert NoLabelFrom(Entries6, 6);
  }

  lemma Entries7HaveNoLabel()
    ensures NoLabelKey(Entries7)
  {
    Entries7TailHasNoLabel();
    assert NoLabelFrom(Entries7, 5);
    assert NoLabelFrom(Entries7, 4);
    assert NoLabelFrom(Entries7, 3);
    assert NoLabelFrom(Entries7, 2);
    assert NoLabelFrom(Entries7, 1);
    assert NoLabelFrom(Entries7, 0);
    NoLabelFromAll(Entries7, 0);
  }

  lemma Entries7TailHasNoLabel()
    ensures NoLabelFrom(Entries7, 6)
  {
    assert NoLabelFrom(Entries7, 11);
    assert NoLabelFrom(Entries7, 10);
    assert NoLabelFrom(Entries7, 9);
    assert NoLabelFrom(Entries7, 8);
    assert NoLabelFrom(Entries7, 7);
    assert NoLabelFrom(Entries7, 6);
  }

  lemma Entries8HaveNoLabel()
    ensures NoLabelKey(Entries8)
  {
    Entries8TailHasNoLabel();
    assert NoLabelFrom(Entries8, 5);
    assert NoLabelFrom(Entries8, 4);
    assert NoLabelFrom(Entries8, 3);
    assert NoLabelFrom(Entries8, 2);
    assert NoLabelFrom(Entries8, 1);
    assert NoLabelFrom(Entries8, 0);
    NoLabelFromAll(Entries8, 0);
  }

  lemma Entries8TailHasNoLabel()
    ensures NoLabelFrom(Entries8, 6)
  {
    assert NoLabelFrom(Entries8, 11);
    assert NoLabelFrom(Entries8, 10);
    assert NoLabelFrom(Entries8, 9);
    assert NoLabelFrom(Entries8, 8);
    assert NoLabelFrom(Entries8, 7);
    assert NoLabelFrom(Entries8, 6);
  }

  lemma Entries9HaveNoLabel()
    ensures NoLabelKey(Entries9)
  {
    Entries9TailHasNoLabel();
    assert NoLabelFrom(Entries9, 5);
    assert NoLabelFrom(Entries9, 4);
    assert NoLabelFrom(Entries9, 3);
    assert NoLabelFrom(Entries9, 2);
    assert NoLabelFrom(Entries9, 1);
    assert NoLabelFrom(Entries9, 0);
    NoLabelFromAll(Entries9, 0);
  }

  lemma Entries9TailHasNoLabel()
    ensures NoLabelFrom(Entries9, 6)
  {
    assert NoLabelFrom(Entries9, 11);
    assert NoLabelFrom(Entries9, 10);
    assert NoLabelFrom(Entries9, 9);
    assert NoLabelFrom(Entries9, 8);
    assert NoLabelFrom(Entries9, 7);
    assert NoLabelFrom(Entries9, 6);
  }

  lemma Entries10HaveNoLabel()
    ensures NoLabelKey(Entries10)
  {
    Entries10TailHasNoLabel();
    assert NoLabelFrom(Entries10, 5);
    assert NoLabelFrom(Entries10, 4);
    assert NoLabelFrom(Entries10, 3);
    assert NoLabelFrom(Entries10, 2);
    assert NoLabelFrom(Entries10, 1);
    assert NoLabelFrom(Entries10, 0);
    NoLabelFromAll(Entries10, 0);
  }

  lemma Entries10TailHasNoLabel()
    ensures NoLabelFrom(Entries10, 6)
  {
    assert NoLabelFrom(Entries10, 11);
    assert NoLabelFrom(Entries10, 10);
    assert NoLabelFrom(Entries10, 9);
    assert NoLabelFrom(Entries10, 8);
    assert NoLabelFrom(Entries10, 7);
    assert NoLabelFrom(Entries10, 6);
  }

  lemma Entries11HaveNoLabel()
    ensures NoLabelKey(Entries11)
  {
    Entries11TailHasNoLabel();
    assert NoLabelFrom(Entries11, 5);
    assert NoLabelFrom(Entries11, 4);
    assert NoLabelFrom(Entries11, 3);
    assert NoLabelFrom(Entries11, 2);
    assert NoLabelFrom(Entries11, 1);
    assert NoLabelFrom(Entries11, 0);
    NoLabelFromAll(Entries11, 0);
  }

  lemma Entries11TailHasNoLabel()
    ensures NoLabelFrom(Entries11, 6)
  {
    assert NoLabelFrom(Entries11, 11);
    assert NoLabelFrom(Entries11, 10);
    assert NoLabelFrom(Entries11, 9);
    assert NoLabelFrom(Entries11, 8);
    assert NoLabelFrom(Entries11, 7);
    assert NoLabelFrom(Entries11, 6);
  }

  lemma Entries12HaveNoLabel()
    ensures NoLabelKey(Entries12)
  {
    Entries12TailHasNoLabel();
    assert NoLabelFrom(Entries12, 5);
    assert NoLabelFrom(Entries12, 4);
    assert NoLabelFrom(Entries12, 3);
    assert NoLabelFrom(Entries12, 2);
    assert NoLabelFrom(Entries12, 1);
    assert NoLabelFrom(Entries12, 0);
    NoLabelFromAll(Entries12, 0);
  }

  lemma Entries12TailHasNoLabel()
    ensures NoLabelFrom(Entries12, 6)
  {
    assert NoLabelFrom(Entries12, 11);
    assert NoLabelFrom(Entries12, 10);
    assert NoLabelFrom(Entries12, 9);
    assert NoLabelFrom(Entries12, 8);
    assert NoLabelFrom(Entries12, 7);
    assert NoLabelFrom(Entries12, 6);
  }

  lemma Entries13HaveNoLabel()
    ensures NoLabelKey(Entries13)
  {
    Entries13TailHasNoLabel();
    assert NoLabelFrom(Entries13, 5);
    assert NoLabelFrom(Entries13, 4);
    assert NoLabelFrom(Entries13, 3);
    assert NoLabelFrom(Entries13, 2);
    assert NoLabelFrom(Entries13, 1);
    assert NoLabelFrom(Entries13, 0);
    NoLabelFromAll(Entries13, 0);
  }

  lemma Entries13TailHasNoLabel()
    ensures NoLabelFrom(Entries13, 6)
  {
    assert NoLabelFrom(Entries13, 11);
    assert NoLabelFrom(Entries13, 10);
    assert NoLabelFrom(Entries13, 9);
    assert NoLabelFrom(Entries13, 8);
    assert NoLabelFrom(Entries13, 7);
    assert NoLabelFrom(Entries13, 6);
  }

  lemma Entries14HaveNoLabel()
    ensures NoLabelKey(Entries14)
  {
    Entries14TailHasNoLabel();
    assert NoLabelFrom(Entries14, 5);
    assert NoLabelFrom(Entries14, 4);
    assert NoLabelFrom(Entries14, 3);
    assert NoLabelFrom(Entries14, 2);
    assert NoLabelFrom(Entries14, 1);
    assert NoLabelFrom(Entries14, 0);
    NoLabelFromAll(Entries14, 0);
  }

  lemma Entries14TailHasNoLabel()
    ensures NoLabelFrom(Entries14, 6)
  {
    assert NoLabelFrom(Entries14, 11);
    assert NoLabelFrom(Entries14, 10);
    assert NoLabelFrom(Entries14, 9);
    assert NoLabelFrom(Entries14, 8);
    assert NoLabelFrom(Entries14, 7);
    assert NoLabelFrom(Entries14, 6);
  }

  lemma Entries15HaveNoLabel()
    ensures NoLabelKey(Entries15)
  {
    Entries15TailHasNoLabel();
    assert NoLabelFrom(Entries15, 5);
    assert NoLabelFrom(Entries15, 4);
    assert NoLabelFrom(Entries15, 3);
    assert NoLabelFrom(Entries15, 2);
    assert NoLabelFrom(Entries15, 1);
    assert NoLabelFrom(Entries15, 0);
    NoLabelFromAll(Entries15, 0);
  }

  lemma Entries15TailHasNoLabel()
    ensures NoLabelFrom(Entries15, 6)
  {
    assert NoLabelFrom(Entries15, 11);
    assert NoLabelFrom(Entries15, 10);
    assert NoLabelFrom(Entries15, 9);
    assert NoLabelFrom(Entries15, 8);
    assert NoLabelFrom(Entries15, 7);
    assert NoLabelFrom(Entries15, 6);
  }

  lemma Entries16HaveNoLabel()
    ensures NoLabelKey(Entries16)
  {
    Entries16TailHasNoLabel();
    assert NoLabelFrom(Entries16, 5);
    assert NoLabelFrom(Entries16, 4);
    assert NoLabelFrom(Entries16, 3);
    assert NoLabelFrom(Entries16, 2);
    assert NoLabelFrom(Entries16, 1);
    assert NoLabelFrom(Entries16, 0);
    NoLabelFromAll(Entries16, 0);
  }

  lemma Entries16TailHasNoLabel()
    ensures NoLabelFrom(Entries16, 6)
  {
    assert NoLabelFrom(Entries16, 11);
    assert NoLabelFrom(Entries16, 10);
    assert NoLabelFrom(Entries16, 9);
    assert NoLabelFrom(Entries16, 8);
    assert NoLabelFrom(Entries16, 7);
    assert NoLabelFrom(Entries16, 6);
  }

  lemma Entries17HaveNoLabel()
    ensures NoLabelKey(Entries17)
  {
    Entries17TailHasNoLabel();
    assert NoLabelFrom(Entries17, 5);
    assert NoLabelFrom(Entries17, 4);
    assert NoLabelFrom(Entries17, 3);
    assert NoLabelFrom(Entries17, 2);
    assert NoLabelFrom(Entries17, 1);
    assert NoLabelFrom(Entries17, 0);
    NoLabelFromAll(Entries17, 0);
  }

  lemma Entries17TailHasNoLabel()
    ensures NoLabelFrom(Entries17, 6)
  {
    assert NoLabelFrom(Entries17, 12);
    assert NoLabelFrom(Entries17, 11);
    assert NoLabelFrom(Entries17, 10);
    assert NoLabelFrom(Entries17, 9);
    assert NoLabelFrom(Entries17, 8);
    assert NoLabelFrom(Entries17, 7);
    assert NoLabelFrom(Entries17, 6);
  }

  /** No key of the conversion table has the print of a band label. */
  lemma TableHasNoLabel()
    ensures NoLabelKey(RentConversionTable)
  {
    var t := Entries1;
    Entries1HaveNoLabel();
    Entries2HaveNoLabel();
    NoLabelKeyAppend(t, Entries2);
    t := t + Entries2;
    Entries3HaveNoLabel();
    NoLabelKeyAppend(t, Entries3);
    t := t + Entries3;
    Entries4HaveNoLabel();
    NoLabelKeyAppend(t, Entries4);
    t := t + Entries4;
    Entries5HaveNoLabel();
    NoLabelKeyAppend(t, Entries5);
    t := t + Entries5;
    Entries6HaveNoLabel();
    NoLabelKeyAppend(t, Entries6);
    t := t + Entries6;
    Entries7HaveNoLabel();
    NoLabelKeyAppend(t, Entries7);
    t := t + Entries7;
    Entries8HaveNoLabel();
    NoLabelKeyAppend(t, Entries8);
    t := t + Entries8;
    Entries9HaveNoLabel();
    NoLabelKeyAppend(t, Entries9);
    t := t + Entries9;
    Entries10HaveNoLabel();
    NoLabelKeyAppend(t, Entries10);
    t := t + Entries10;
    Entries11HaveNoLabel();
    NoLabelKeyAppend(t, Entries11);
    t := t + Entries11;
    Entries12HaveNoLabel();
    NoLabelKeyAppend(t, Entries12);
    t := t + Entries12;
    Entries13HaveNoLabel();
    NoLabelKeyAppend(t, Entries13);
    t := t + Entries13;
    Entries14HaveNoLabel();
    NoLabelKeyAppend(t, Entries14);
    t := t + Entries14;
    Entries15HaveNoLabel();
    NoLabelKeyAppend(t, Entries15);
    t := t + Entries15;
    Entries16HaveNoLabel();
    NoLabelKeyAppend(t, Entries16);
    t := t + Entries16;
    Entries17HaveNoLabel();
    NoLabelKeyAppend(t, Entries17);
    t := t + Entries17;
    assert t == RentConversionTable;
  }

  /** A closed band of whole thousands is labelled with its two bounds. */
  lemma ClosedLabel(r: RentRange, lo: nat, hi: nat)
    requires 1 <= lo < 1000 && 1 <= hi < 1000 && r == RentRange(lo * 1000, Some(hi * 1000))
    ensures RangeLabel(r) == NatText(lo) + ",000~" + NatText(hi) + ",000円"
  {
    WholeThousands(lo);
    WholeThousands(hi);
  }

  lemma BandPrint0()
    ensures RangeLabel(RentRanges[0]) == "~50,000円" && Print(RangeLabel(RentRanges[0])) == LabelPrints[0]
  {
    assert RentRanges[0] == RentRange(0, Some(50000));
    WholeThousands(50);
    assert NatText(50) == "50";
  }

  lemma BandPrint1()
    ensures RangeLabel(RentRanges[1]) == "51,000~75,000円" && Print(RangeLabel(RentRanges[1])) == LabelPrints[1]
  {
    assert RentRanges[1] == RentRange(51000, Some(75000));
    ClosedLabel(RentRanges[1], 51, 75);
    assert NatText(51) == "51" && NatText(75) == "75";
  }

  lemma BandPrint2()
    ensures RangeLabel(RentRanges[2]) == "76,000~100,000円" && Print(RangeLabel(RentRanges[2])) == LabelPrints[2]
  {
    assert RentRanges[2] == RentRange(76000, Some(100000));
    ClosedLabel(RentRanges[2], 76, 100);
    assert NatText(76) == "76" && NatText(100) == "100";
  }

  lemma BandPrint3()
    ensures RangeLabel(RentRanges[3]) == "101,000~125,000円" && Print(RangeLabel(RentRanges[3])) == LabelPrints[3]
  {
    assert RentRanges[3] == RentRange(101000, Some(125000));
    ClosedLabel(RentRanges[3], 101, 125);
    assert NatText(101) == "101" && NatText(125) == "125";
  }

  lemma BandPrint4()
    ensures RangeLabel(RentRanges[4]) == "126,000~150,000円" && Print(RangeLabel(RentRanges[4])) == LabelPrints[4]
  {
    assert RentRanges[4] == RentRange(126000, Some(150000));
    ClosedLabel(RentRanges[4], 126, 150);
    assert NatText(126) == "126" && NatText(150) == "150";
  }

  lemma BandPrint5()
    ensures RangeLabel(RentRanges[5]) == "151,000~170,000円" && Print(RangeLabel(RentRanges[5])) == LabelPrints[5]
  {
    assert RentRanges[5] == RentRange(151000, Some(170000));
    ClosedLabel(RentRanges[5], 151, 170);
    assert NatText(151) == "151" && NatText(170) == "170";
  }

  lemma BandPrint6()
    ensures RangeLabel(RentRanges[6]) == "171,000~200,000円" && Print(RangeLabel(RentRanges[6])) == LabelPrints[6]
  {
    assert RentRanges[6] == RentRange(171000, Some(200000));
    ClosedLabel(RentRanges[6], 171, 200);
    assert NatText(171) == "171" && NatText(200) == "200";
  }

  lemma BandPrint7()
    ensures RangeLabel(RentRanges[7]) == "201,000~225,000円" && Print(RangeLabel(RentRanges[7])) == LabelPrints[7]
  {
    assert RentRanges[7] == RentRange(201000, Some(225000));
    ClosedLabel(RentRanges[7], 201, 225);
    assert NatText(201) == "201" && NatText(225) == "225";
  }

  lemma BandPrint8()
    ensures RangeLabel(RentRanges[8]) == "226,000~250,000円" && Print(RangeLabel(RentRanges[8])) == LabelPrints[8]
  {
    assert RentRanges[8] == RentRange(226000, Some(250000));
    ClosedLabel(RentRanges[8], 226, 250);
    assert NatText(226) == "226" && NatText(250) == "250";
  }

  lemma BandPrint9()
    ensures RangeLabel(RentRanges[9]) == "251,000~275,000円" && Print(RangeLabel(RentRanges[9])) == LabelPrints[9]
  {
    assert RentRanges[9] == RentRange(251000, Some(275000));
    ClosedLabel(RentRanges[9], 251, 275);
    assert NatText(251) == "251" && NatText(275) == "275";
  }

  lemma BandPrint10()
    ensures RangeLabel(RentRanges[10]) == "276,000~300,000円" && Print(RangeLabel(RentRanges[10])) == LabelPrints[10]
  {
    assert RentRanges[10] == RentRange(276000, Some(300000));
    ClosedLabel(RentRanges[10], 276, 300);
    assert NatText(276) == "276" && NatText(300) == "300";
  }

  lemma BandPrint11()
    ensures RangeLabel(RentRanges[11]) == "301,000~325,000円" && Print(RangeLabel(RentRanges[11])) == LabelPrints[11]
  {
    assert RentRanges[11] == RentRange(301000, Some(325000));
    ClosedLabel(RentRanges[11], 301, 325);
    assert NatText(301) == "301" && NatText(325) == "325";
  }

  lemma BandPrint12()
    ensures RangeLabel(RentRanges[12]) == "326,000~350,000円" && Print(RangeLabel(RentRanges[12])) == LabelPrints[12]
  {
    assert RentRanges[12] == RentRange(326000, Some(350000));
    ClosedLabel(RentRanges[12], 326, 350);
    assert NatText(326) == "326" && NatText(350) == "350";
  }

  lemma BandPrint13()
    ensures RangeLabel(RentRanges[13]) == "351,000~375,000円" && Print(RangeLabel(RentRanges[13])) == LabelPrints[13]
  {
    assert RentRanges[13] == RentRange(351000, Some(375000));
    ClosedLabel(RentRanges[13], 351, 375);
    assert NatText(351) == "351" && NatText(375) == "375";
  }

  lemma BandPrint14()
    ensures RangeLabel(RentRanges[14]) == "376,000~400,000円" && Print(RangeLabel(RentRanges[14])) == LabelPrints[14]
  {
    assert RentRanges[14] == RentRange(376000, Some(400000));
    ClosedLabel(RentRanges[14], 376, 400);
    assert NatText(376) == "376" && NatText(400) == "400";
  }

  lemma BandPrint15()
    ensures RangeLabel(RentRanges[15]) == "401,000~425,000円" && Print(RangeLabel(RentRanges[15])) == LabelPrints[15]
  {
    assert RentRanges[15] == RentRange(401000, Some(425000));
    ClosedLabel(RentRanges[15], 401, 425);
    assert NatText(401) == "401" && NatText(425) == "425";
  }

  lemma BandPrint16()
    ensures RangeLabel(RentRanges[16]) == "426,000~450,000円" && Print(RangeLabel(RentRanges[16])) == LabelPrints[16]
  {
    assert RentRanges[16] == RentRange(426000, Some(450000));
    ClosedLabel(RentRanges[16], 426, 450);
    assert NatText(426) == "426" && NatText(450) == "450";
  }

  lemma BandPrint17()
    ensures RangeLabel(RentRanges[17]) == "451,000~475,000円" && Print(RangeLabel(RentRanges[17])) == LabelPrints[17]
  {
    assert RentRanges[17] == RentRange(451000, Some(475000));
    ClosedLabel(RentRanges[17], 451, 475);
    assert NatText(451) == "451" && NatText(475) == "475";
  }

  lemma BandPrint18()
    ensures RangeLabel(RentRanges[18]) == "476,000~500,000円" && Print(RangeLabel(RentRanges[18])) == LabelPrints[18]
  {
    assert RentRanges[18] == RentRange(476000, Some(500000));
    ClosedLabel(RentRanges[18], 476, 500);
    assert NatText(476) == "476" && NatText(500) == "500";
  }

  lemma BandPrint19()
    ensures RangeLabel(RentRanges[19]) == "510,000円~" && Print(RangeLabel(RentRanges[19])) == LabelPrints[19]
  {
    assert RentRanges[19] == RentRange(510000, None);
    WholeThousands(510);
    assert NatText(510) == "510";
  }

  /** Each band label has its print. */
  lemma BandPrints(j: nat)
    requires j < |RentRanges|
    ensures Print(RangeLabel(RentRanges[j])) == LabelPrints[j]
  {
    LastBand();
    if j == 0 { BandPrint0(); }
    else if j == 1 { BandPrint1(); }
    else if j == 2 { BandPrint2(); }
    else if j == 3 { BandPrint3(); }
    else if j == 4 { BandPrint4(); }
    else if j == 5 { BandPrint5(); }
    else if j == 6 { BandPrint6(); }
    else if j == 7 { BandPrint7(); }
    else if j == 8 { BandPrint8(); }
    else if j == 9 { BandPrint9(); }
    else if j == 10 { BandPrint10(); }
    else if j == 11 { BandPrint11(); }
    else if j == 12 { BandPrint12(); }
    else if j == 13 { BandPrint13(); }
    else if j == 14 { BandPrint14(); }
    else if j == 15 { BandPrint15(); }
    else if j == 16 { BandPrint16(); }
    else if j == 17 { BandPrint17(); }
    else if j == 18 { BandPrint18(); }
    else if j == 19 { BandPrint19(); }
  }

  /** No band label is a key of the conversion table. */
  lemma BandLabelIsNoKey(j: nat)
    requires j < |RentRanges|
    ensures TableLookup(RentConversionTable, RangeLabel(RentRanges[j])).None?
  {
    TableHasNoLabel();
    BandPrints(j);
    var text := RangeLabel(RentRanges[j]);
    forall i | 0 <= i < |RentConversionTable|
      ensures RentConversionTable[i].0 != text
    {
      assert Print(RentConversionTable[i].0) != LabelPrints[j];
    }
  }

  /** `parseRentValue` reads each band label as the band's maximum, and the open band's label as
    * 500,000. */
  lemma BandLabelReadsAsMaximum(j: nat)
    requires j < |RentRanges|
    ensures var r := RentRanges[j];
      ParseRentValue(RangeLabel(r)) == Valid(if r.max.Some? then r.max.value else 500000, RangeLabel(r))
  {
    var r := RentRanges[j];
    BandLabelIsNoKey(j);
    RentRangesAscending();
    LastBand();
    if r.max.Some? {
      if j > 0 {
        assert RentRanges[j - 1].max.value < r.min;
      } else {
        assert r.max == Some(50000);
      }
      BandLabelParsesToItsMaximum(RentConversionTable, r);
    } else {
      OpenBandLabelParsesToTop(RentConversionTable, r);
    }
  }

  /** `76,000~100,000円` reads as 100,000 yen. */
  lemma ThirdBandLabelReadsAsMaximum()
    ensures ParseRentValue("76,000~100,000円") == Valid(100000, "76,000~100,000円")
  {
    BandPrint2();
    ThirdBand();
    BandLabelReadsAsMaximum(2);
  }

  /** `510,000円~` reads as 500,000 yen, not 510,000. */
  lemma OpenBandLabelReadsAsTop()
    ensures ParseRentValue("510,000円~") == Valid(500000, "510,000円~")
  {
    BandPrint19();
    LastBand();
    BandLabelReadsAsMaximum(19);
  }
}
