/** The table of emoji ranges, and the binary search over it. */
module Emoji {

  datatype Range = Range(first: nat, last: nat)

  // The characters drawn as emoji: Extended_Pictographic and the Emoji_Component
  // beyond ASCII of the Unicode emoji data 18.0, with the text variation selector.
  // Sixteen ranges at a time.

  function PartOne(): seq<Range> {
    [Range(0x000A9, 0x000A9), Range(0x000AE, 0x000AE), Range(0x0200D, 0x0200D), Range(0x0203C, 0x0203C),
      Range(0x02049, 0x02049), Range(0x020E3, 0x020E3), Range(0x02122, 0x02122), Range(0x02139, 0x02139),
      Range(0x02194, 0x02199), Range(0x021A9, 0x021AA), Range(0x0231A, 0x0231B), Range(0x02328, 0x02328),
      Range(0x023CF, 0x023CF), Range(0x023E9, 0x023F3), Range(0x023F8, 0x023FA), Range(0x024C2, 0x024C2)]
  }

  function PartTwo(): seq<Range> {
    [Range(0x025AA, 0x025AB), Range(0x025B6, 0x025B6), Range(0x025C0, 0x025C0), Range(0x025FB, 0x025FE),
      Range(0x02600, 0x02604), Range(0x0260E, 0x0260E), Range(0x02611, 0x02611), Range(0x02614, 0x02615),
      Range(0x02618, 0x02618), Range(0x0261D, 0x0261D), Range(0x02620, 0x02620), Range(0x02622, 0x02623),
      Range(0x02626, 0x02626), Range(0x0262A, 0x0262A), Range(0x0262E, 0x0262F), Range(0x02638, 0x0263A)]
  }

  function PartThree(): seq<Range> {
    [Range(0x02640, 0x02640), Range(0x02642, 0x02642), Range(0x02648, 0x02653), Range(0x0265F, 0x02660),
      Range(0x02663, 0x02663), Range(0x02665, 0x02666), Range(0x02668, 0x02668), Range(0x0267B, 0x0267B),
      Range(0x0267E, 0x0267F), Range(0x02692, 0x02697), Range(0x02699, 0x02699), Range(0x0269B, 0x0269C),
      Range(0x026A0, 0x026A1), Range(0x026A7, 0x026A7), Range(0x026AA, 0x026AB), Range(0x026B0, 0x026B1)]
  }

  function PartFour(): seq<Range> {
    [Range(0x026BD, 0x026BE), Range(0x026C4, 0x026C5), Range(0x026C8, 0x026C8), Range(0x026CE, 0x026CF),
      Range(0x026D1, 0x026D1), Range(0x026D3, 0x026D4), Range(0x026E9, 0x026EA), Range(0x026F0, 0x026F5),
      Range(0x026F7, 0x026FA), Range(0x026FD, 0x026FD), Range(0x02702, 0x02702), Range(0x02705, 0x02705),
      Range(0x02708, 0x0270D), Range(0x0270F, 0x0270F), Range(0x02712, 0x02712), Range(0x02714, 0x02714)]
  }

  function PartFive(): seq<Range> {
    [Range(0x02716, 0x02716), Range(0x0271D, 0x0271D), Range(0x02721, 0x02721), Range(0x02728, 0x02728),
      Range(0x02733, 0x02734), Range(0x02744, 0x02744), Range(0x02747, 0x02747), Range(0x0274C, 0x0274C),
      Range(0x0274E, 0x0274E), Range(0x02753, 0x02755), Range(0x02757, 0x02757), Range(0x02763, 0x02764),
      Range(0x02795, 0x02797), Range(0x027A1, 0x027A1), Range(0x027B0, 0x027B0), Range(0x027BF, 0x027BF)]
  }

  function PartSix(): seq<Range> {
    [Range(0x02934, 0x02935), Range(0x02B05, 0x02B07), Range(0x02B1B, 0x02B1C), Range(0x02B50, 0x02B50),
      Range(0x02B55, 0x02B55), Range(0x03030, 0x03030), Range(0x0303D, 0x0303D), Range(0x03297, 0x03297),
      Range(0x03299, 0x03299), Range(0x0FE0E, 0x0FE0F), Range(0x1F004, 0x1F004), Range(0x1F02C, 0x1F02F),
      Range(0x1F094, 0x1F09F), Range(0x1F0AF, 0x1F0B0), Range(0x1F0C0, 0x1F0C0), Range(0x1F0CF, 0x1F0D0)]
  }

  function PartSeven(): seq<Range> {
    [Range(0x1F0F6, 0x1F0FF), Range(0x1F170, 0x1F171), Range(0x1F17E, 0x1F17F), Range(0x1F18E, 0x1F18E),
      Range(0x1F191, 0x1F19A), Range(0x1F1AF, 0x1F1FF), Range(0x1F201, 0x1F20F), Range(0x1F21A, 0x1F21A),
      Range(0x1F22F, 0x1F22F), Range(0x1F232, 0x1F23A), Range(0x1F23C, 0x1F23F), Range(0x1F249, 0x1F25F),
      Range(0x1F266, 0x1F321), Range(0x1F324, 0x1F393), Range(0x1F396, 0x1F397), Range(0x1F399, 0x1F39B)]
  }

  function PartEight(): seq<Range> {
    [Range(0x1F39E, 0x1F3F0), Range(0x1F3F3, 0x1F3F5), Range(0x1F3F7, 0x1F4FD), Range(0x1F4FF, 0x1F53D),
      Range(0x1F549, 0x1F54E), Range(0x1F550, 0x1F567), Range(0x1F56F, 0x1F570), Range(0x1F573, 0x1F57A),
      Range(0x1F587, 0x1F587), Range(0x1F58A, 0x1F58D), Range(0x1F590, 0x1F590), Range(0x1F595, 0x1F596),
      Range(0x1F5A4, 0x1F5A5), Range(0x1F5A8, 0x1F5A8), Range(0x1F5B1, 0x1F5B2), Range(0x1F5BC, 0x1F5BC)]
  }

  function PartNine(): seq<Range> {
    [Range(0x1F5C2, 0x1F5C4), Range(0x1F5D1, 0x1F5D3), Range(0x1F5DC, 0x1F5DE), Range(0x1F5E1, 0x1F5E1),
      Range(0x1F5E3, 0x1F5E3), Range(0x1F5E8, 0x1F5E8), Range(0x1F5EF, 0x1F5EF), Range(0x1F5F3, 0x1F5F3),
      Range(0x1F5FA, 0x1F64F), Range(0x1F680, 0x1F6C5), Range(0x1F6CB, 0x1F6D2), Range(0x1F6D5, 0x1F6E5),
      Range(0x1F6E9, 0x1F6E9), Range(0x1F6EB, 0x1F6F0), Range(0x1F6F3, 0x1F6FF), Range(0x1F7DC, 0x1F7F0)]
  }

  function PartTen(): seq<Range> {
    [Range(0x1F80C, 0x1F80F), Range(0x1F848, 0x1F84F), Range(0x1F85A, 0x1F85F), Range(0x1F888, 0x1F88F),
      Range(0x1F8AE, 0x1F8AF), Range(0x1F8BC, 0x1F8BF), Range(0x1F8C2, 0x1F8CF), Range(0x1F8D9, 0x1F8FF),
      Range(0x1F90C, 0x1F93A), Range(0x1F93C, 0x1F945), Range(0x1F947, 0x1F9FF), Range(0x1FA58, 0x1FA5F),
      Range(0x1FA6E, 0x1FAFF), Range(0x1FC00, 0x1FFFD), Range(0xE0020, 0xE007F)]
  }

  function EmojiTable(): seq<Range> {
    PartOne() + PartTwo() + PartThree() + PartFour() + PartFive()
    + PartSix() + PartSeven() + PartEight() + PartNine() + PartTen()
  }

  predicate In(cp: nat, r: Range) {
    r.first <= cp <= r.last
  }

  /** Membership, range by range. */
  predicate IsEmoji(cp: nat) {
    var table := EmojiTable();
    exists i :: 0 <= i < |table| && In(cp, table[i])
  }

  // ------------------------------------------------------------ the order

  /** Each range starts past the one before. */
  predicate Steps(table: seq<Range>) {
    && (forall i :: 0 <= i < |table| ==> table[i].first <= table[i].last)
    && (forall i, j :: 0 <= i < j == i + 1 < |table| ==> table[i].last < table[j].first)
  }

  predicate Ascending(table: seq<Range>) {
    forall i, j :: 0 <= i < j < |table| ==> table[i].first <= table[i].last < table[j].first <= table[j].last
  }

  lemma PartOneSteps()
    ensures Steps(PartOne()) && |PartOne()| == 16
    ensures PartOne()[0].first == 0x000A9 && PartOne()[15].last == 0x024C2
  {
  }

  lemma PartTwoSteps()
    ensures Steps(PartTwo()) && |PartTwo()| == 16
    ensures PartTwo()[0].first == 0x025AA && PartTwo()[15].last == 0x0263A
  {
  }

  lemma PartThreeSteps()
    ensures Steps(PartThree()) && |PartThree()| == 16
    ensures PartThree()[0].first == 0x02640 && PartThree()[15].last == 0x026B1
  {
  }

  lemma PartFourSteps()
    ensures Steps(PartFour()) && |PartFour()| == 16
    ensures PartFour()[0].first == 0x026BD && PartFour()[15].last == 0x02714
  {
  }

  lemma PartFiveSteps()
    ensures Steps(PartFive()) && |PartFive()| == 16
    ensures PartFive()[0].first == 0x02716 && PartFive()[15].last == 0x027BF
  {
  }

  lemma PartSixSteps()
    ensures Steps(PartSix()) && |PartSix()| == 16
    ensures PartSix()[0].first == 0x02934 && PartSix()[15].last == 0x1F0D0
  {
  }

  lemma PartSevenSteps()
    ensures Steps(PartSeven()) && |PartSeven()| == 16
    ensures PartSeven()[0].first == 0x1F0F6 && PartSeven()[15].last == 0x1F39B
  {
  }

  lemma PartEightSteps()
    ensures Steps(PartEight()) && |PartEight()| == 16
    ensures PartEight()[0].first == 0x1F39E && PartEight()[15].last == 0x1F5BC
  {
  }

  lemma PartNineSteps()
    ensures Steps(PartNine()) && |PartNine()| == 16
    ensures PartNine()[0].first == 0x1F5C2 && PartNine()[15].last == 0x1F7F0
  {
  }

  lemma PartTenSteps()
    ensures Steps(PartTen()) && |PartTen()| == 15
    ensures PartTen()[0].first == 0x1F80C && PartTen()[14].last == 0xE007F
  {
  }

  lemma StepsJoin(a: seq<Range>, b: seq<Range>)
    requires Steps(a) && Steps(b) && a != [] && b != [] && a[|a| - 1].last < b[0].first
    ensures Steps(a + b) && (a + b)[|a + b| - 1] == b[|b| - 1]
  {
  }

  lemma TableSteps()
    ensures Steps(EmojiTable())
  {
    hide Steps, PartOne, PartTwo, PartThree, PartFour, PartFive, PartSix, PartSeven, PartEight, PartNine, PartTen;
    PartOneSteps();
    PartTwoSteps();
    PartThreeSteps();
    PartFourSteps();
    PartFiveSteps();
    PartSixSteps();
    PartSevenSteps();
    PartEightSteps();
    PartNineSteps();
    PartTenSteps();
    var table := PartOne();
    StepsJoin(table, PartTwo());
    table := table + PartTwo();
    StepsJoin(table, PartThree());
    table := table + PartThree();
    StepsJoin(table, PartFour());
    table := table + PartFour();
    StepsJoin(table, PartFive());
    table := table + PartFive();
    StepsJoin(table, PartSix());
    table := table + PartSix();
    StepsJoin(table, PartSeven());
    table := table + PartSeven();
    StepsJoin(table, PartEight());
    table := table + PartEight();
    StepsJoin(table, PartNine());
    table := table + PartNine();
    StepsJoin(table, PartTen());
    table := table + PartTen();
  }

  lemma {:induction false} StepsAscend(table: seq<Range>, j: nat)
    requires Steps(table) && j < |table|
    ensures forall i :: 0 <= i < j ==> table[i].last < table[j].first
  {
    if j > 0 {
      StepsAscend(table, j - 1);
      assert table[j - 1].first <= table[j - 1].last < table[j].first;
    }
  }

  lemma TableAscends()
    ensures Ascending(EmojiTable())
  {
    TableSteps();
    var table := EmojiTable();
    hide EmojiTable;
    forall i, j | 0 <= i < j < |table|
      ensures table[i].first <= table[i].last < table[j].first <= table[j].last
    {
      StepsAscend(table, j);
    }
  }

  /** The search finds exactly the members of the table. */
  method Search(cp: nat) returns (found: bool)
    ensures found == IsEmoji(cp)
  {
    hide EmojiTable;
    TableAscends();
    var table := EmojiTable();
    var lo, hi := 0, |table|;
    while lo < hi
      invariant 0 <= lo <= hi <= |table|
      invariant forall i :: 0 <= i < lo ==> table[i].last < cp
      invariant forall i :: hi <= i < |table| ==> cp < table[i].first
    {
      var mid := (lo + hi) / 2;
      if cp < table[mid].first {
        hi := mid;
      } else if cp > table[mid].last {
        lo := mid + 1;
      } else {
        return true;
      }
    }
    return false;
  }
}
