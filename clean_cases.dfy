module CleanCases {
  import opened Strings
  import opened Rewrites
  import opened PdfUtils

  /** `s` is "M a y  2 0 2 5  -  A u g  2 0 2 5", character by character. */
  predicate MonthRangeText0(s: string) {
    |s| == 33 && s[0] == 'M' && s[1] == ' ' && s[2] == 'a' && s[3] == ' ' && s[4] == 'y'
    && s[5] == ' ' && s[6] == ' ' && s[7] == '2' && s[8] == ' ' && s[9] == '0' && s[10] == ' '
    && s[11] == '2' && s[12] == ' ' && s[13] == '5' && s[14] == ' ' && s[15] == ' ' && s[16] == '-'
    && s[17] == ' ' && s[18] == ' ' && s[19] == 'A' && s[20] == ' ' && s[21] == 'u' && s[22] == ' '
    && s[23] == 'g' && s[24] == ' ' && s[25] == ' ' && s[26] == '2' && s[27] == ' ' && s[28] == '0'
    && s[29] == ' ' && s[30] == '2' && s[31] == ' ' && s[32] == '5'
  }

  /** `s` is "Ma y  20 25  -  Au g  20 25", character by character. */
  predicate MonthRangeText1(s: string) {
    |s| == 27 && s[0] == 'M' && s[1] == 'a' && s[2] == ' ' && s[3] == 'y' && s[4] == ' '
    && s[5] == ' ' && s[6] == '2' && s[7] == '0' && s[8] == ' ' && s[9] == '2' && s[10] == '5'
    && s[11] == ' ' && s[12] == ' ' && s[13] == '-' && s[14] == ' ' && s[15] == ' ' && s[16] == 'A'
    && s[17] == 'u' && s[18] == ' ' && s[19] == 'g' && s[20] == ' ' && s[21] == ' ' && s[22] == '2'
    && s[23] == '0' && s[24] == ' ' && s[25] == '2' && s[26] == '5'
  }

  lemma {:induction false} MonthRangeCollapse0Part0(s: string)
    requires MonthRangeText0(s)
    ensures CollapseFrom(s, 0) == "Ma y  20 25" + CollapseFrom(s, 14)
  {
    assert CollapseFrom(s, 0) == "Ma" + CollapseFrom(s, 3);
    assert CollapseFrom(s, 3) == " " + CollapseFrom(s, 4);
    assert CollapseFrom(s, 4) == "y" + CollapseFrom(s, 5);
    assert CollapseFrom(s, 5) == " " + CollapseFrom(s, 6);
    assert CollapseFrom(s, 6) == " " + CollapseFrom(s, 7);
    assert CollapseFrom(s, 7) == "20" + CollapseFrom(s, 10);
    assert CollapseFrom(s, 10) == " " + CollapseFrom(s, 11);
    assert CollapseFrom(s, 11) == "25" + CollapseFrom(s, 14);
  }

  lemma {:induction false} MonthRangeCollapse0Part1(s: string)
    requires MonthRangeText0(s)
    ensures CollapseFrom(s, 14) == "  -  Au g" + CollapseFrom(s, 24)
  {
    assert CollapseFrom(s, 14) == " " + CollapseFrom(s, 15);
    assert CollapseFrom(s, 15) == " " + CollapseFrom(s, 16);
    assert CollapseFrom(s, 16) == "-" + CollapseFrom(s, 17);
    assert CollapseFrom(s, 17) == " " + CollapseFrom(s, 18);
    assert CollapseFrom(s, 18) == " " + CollapseFrom(s, 19);
    assert CollapseFrom(s, 19) == "Au" + CollapseFrom(s, 22);
    assert CollapseFrom(s, 22) == " " + CollapseFrom(s, 23);
    assert CollapseFrom(s, 23) == "g" + CollapseFrom(s, 24);
  }

  lemma {:induction false} MonthRangeCollapse0Part2(s: string)
    requires MonthRangeText0(s)
    ensures CollapseFrom(s, 24) == "  20 25" + CollapseFrom(s, 33)
  {
    assert CollapseFrom(s, 24) == " " + CollapseFrom(s, 25);
    assert CollapseFrom(s, 25) == " " + CollapseFrom(s, 26);
    assert CollapseFrom(s, 26) == "20" + CollapseFrom(s, 29);
    assert CollapseFrom(s, 29) == " " + CollapseFrom(s, 30);
    assert CollapseFrom(s, 30) == "25" + CollapseFrom(s, 33);
  }

  lemma {:induction false} MonthRangeCollapse0(s: string)
    requires MonthRangeText0(s)
    ensures MonthRangeText1(CollapsePass(s))
  {
    MonthRangeCollapse0Part0(s);
    MonthRangeCollapse0Part1(s);
    MonthRangeCollapse0Part2(s);
    assert CollapseFrom(s, 33) == [];
  }

  /** `s` is "May  2025  -  Aug  2025", character by character. */
  predicate MonthRangeText2(s: string) {
    |s| == 23 && s[0] == 'M' && s[1] == 'a' && s[2] == 'y' && s[3] == ' ' && s[4] == ' '
    && s[5] == '2' && s[6] == '0' && s[7] == '2' && s[8] == '5' && s[9] == ' ' && s[10] == ' '
    && s[11] == '-' && s[12] == ' ' && s[13] == ' ' && s[14] == 'A' && s[15] == 'u' && s[16] == 'g'
    && s[17] == ' ' && s[18] == ' ' && s[19] == '2' && s[20] == '0' && s[21] == '2' && s[22] == '5'
  }

  lemma {:induction false} MonthRangeCollapse1Part0(s: string)
    requires MonthRangeText1(s)
    ensures CollapseFrom(s, 0) == "May  2025 " + CollapseFrom(s, 12)
  {
    assert CollapseFrom(s, 0) == "M" + CollapseFrom(s, 1);
    assert CollapseFrom(s, 1) == "ay" + CollapseFrom(s, 4);
    assert CollapseFrom(s, 4) == " " + CollapseFrom(s, 5);
    assert CollapseFrom(s, 5) == " " + CollapseFrom(s, 6);
    assert CollapseFrom(s, 6) == "2" + CollapseFrom(s, 7);
    assert CollapseFrom(s, 7) == "02" + CollapseFrom(s, 10);
    assert CollapseFrom(s, 10) == "5" + CollapseFrom(s, 11);
    assert CollapseFrom(s, 11) == " " + CollapseFrom(s, 12);
  }

  lemma {:induction false} MonthRangeCollapse1Part1(s: string)
    requires MonthRangeText1(s)
    ensures CollapseFrom(s, 12) == " -  Aug  " + CollapseFrom(s, 22)
  {
    assert CollapseFrom(s, 12) == " " + CollapseFrom(s, 13);
    assert CollapseFrom(s, 13) == "-" + CollapseFrom(s, 14);
    assert CollapseFrom(s, 14) == " " + CollapseFrom(s, 15);
    assert CollapseFrom(s, 15) == " " + CollapseFrom(s, 16);
    assert CollapseFrom(s, 16) == "A" + CollapseFrom(s, 17);
    assert CollapseFrom(s, 17) == "ug" + CollapseFrom(s, 20);
    assert CollapseFrom(s, 20) == " " + CollapseFrom(s, 21);
    assert CollapseFrom(s, 21) == " " + CollapseFrom(s, 22);
  }

  lemma {:induction false} MonthRangeCollapse1Part2(s: string)
    requires MonthRangeText1(s)
    ensures CollapseFrom(s, 22) == "2025" + CollapseFrom(s, 27)
  {
    assert CollapseFrom(s, 22) == "2" + CollapseFrom(s, 23);
    assert CollapseFrom(s, 23) == "02" + CollapseFrom(s, 26);
    assert CollapseFrom(s, 26) == "5" + CollapseFrom(s, 27);
  }

  lemma {:induction false} MonthRangeCollapse1(s: string)
    requires MonthRangeText1(s)
    ensures MonthRangeText2(CollapsePass(s))
  {
    MonthRangeCollapse1Part0(s);
    MonthRangeCollapse1Part1(s);
    MonthRangeCollapse1Part2(s);
    assert CollapseFrom(s, 27) == [];
  }

  lemma {:induction false} MonthRangeCollapse2Part0(s: string)
    requires MonthRangeText2(s)
    ensures CollapseFrom(s, 0) == "May  202" + CollapseFrom(s, 8)
  {
    assert CollapseFrom(s, 0) == "M" + CollapseFrom(s, 1);
    assert CollapseFrom(s, 1) == "a" + CollapseFrom(s, 2);
    assert CollapseFrom(s, 2) == "y" + CollapseFrom(s, 3);
    assert CollapseFrom(s, 3) == " " + CollapseFrom(s, 4);
    assert CollapseFrom(s, 4) == " " + CollapseFrom(s, 5);
    assert CollapseFrom(s, 5) == "2" + CollapseFrom(s, 6);
    assert CollapseFrom(s, 6) == "0" + CollapseFrom(s, 7);
    assert CollapseFrom(s, 7) == "2" + CollapseFrom(s, 8);
  }

  lemma {:induction false} MonthRangeCollapse2Part1(s: string)
    requires MonthRangeText2(s)
    ensures CollapseFrom(s, 8) == "5  -  Au" + CollapseFrom(s, 16)
  {
    assert CollapseFrom(s, 8) == "5" + CollapseFrom(s, 9);
    assert CollapseFrom(s, 9) == " " + CollapseFrom(s, 10);
    assert CollapseFrom(s, 10) == " " + CollapseFrom(s, 11);
    assert CollapseFrom(s, 11) == "-" + CollapseFrom(s, 12);
    assert CollapseFrom(s, 12) == " " + CollapseFrom(s, 13);
    assert CollapseFrom(s, 13) == " " + CollapseFrom(s, 14);
    assert CollapseFrom(s, 14) == "A" + CollapseFrom(s, 15);
    assert CollapseFrom(s, 15) == "u" + CollapseFrom(s, 16);
  }

  lemma {:induction false} MonthRangeCollapse2Part2(s: string)
    requires MonthRangeText2(s)
    ensures CollapseFrom(s, 16) == "g  2025" + CollapseFrom(s, 23)
  {
    assert CollapseFrom(s, 16) == "g" + CollapseFrom(s, 17);
    assert CollapseFrom(s, 17) == " " + CollapseFrom(s, 18);
    assert CollapseFrom(s, 18) == " " + CollapseFrom(s, 19);
    assert CollapseFrom(s, 19) == "2" + CollapseFrom(s, 20);
    assert CollapseFrom(s, 20) == "0" + CollapseFrom(s, 21);
    assert CollapseFrom(s, 21) == "2" + CollapseFrom(s, 22);
    assert CollapseFrom(s, 22) == "5" + CollapseFrom(s, 23);
  }

  lemma {:induction false} MonthRangeCollapse2(s: string)
    requires MonthRangeText2(s)
    ensures MonthRangeText2(CollapsePass(s))
  {
    MonthRangeCollapse2Part0(s);
    MonthRangeCollapse2Part1(s);
    MonthRangeCollapse2Part2(s);
    assert CollapseFrom(s, 23) == [];
  }

  lemma MonthRangeCollapsed(text: string)
    requires MonthRangeText0(text)
    ensures MonthRangeText2(CollapseTimes(text, CollapseRounds))
  {
    MonthRangeCollapse0(text);
    var c1 := CollapsePass(text);
    assert CollapseTimes(text, 1) == c1;
    MonthRangeCollapse1(c1);
    var c2 := CollapsePass(c1);
    assert CollapseTimes(text, 2) == c2;
    MonthRangeCollapse2(c2);
    var c3 := CollapsePass(c2);
    assert CollapseTimes(text, 3) == c3;
    CollapseTimesSettles(text, 2, CollapseRounds);
  }

  lemma {:induction false} MonthRangeDotUpperPart0(s: string)
    requires MonthRangeText2(s)
    ensures SplitFrom(s, 0, DotUpper) == "May  202" + SplitFrom(s, 8, DotUpper)
  {
    assert SplitFrom(s, 0, DotUpper) == "M" + SplitFrom(s, 1, DotUpper);
    assert SplitFrom(s, 1, DotUpper) == "a" + SplitFrom(s, 2, DotUpper);
    assert SplitFrom(s, 2, DotUpper) == "y" + SplitFrom(s, 3, DotUpper);
    assert SplitFrom(s, 3, DotUpper) == " " + SplitFrom(s, 4, DotUpper);
    assert SplitFrom(s, 4, DotUpper) == " " + SplitFrom(s, 5, DotUpper);
    assert SplitFrom(s, 5, DotUpper) == "2" + SplitFrom(s, 6, DotUpper);
    assert SplitFrom(s, 6, DotUpper) == "0" + SplitFrom(s, 7, DotUpper);
    assert SplitFrom(s, 7, DotUpper) == "2" + SplitFrom(s, 8, DotUpper);
  }

  lemma {:induction false} MonthRangeDotUpperPart1(s: string)
    requires MonthRangeText2(s)
    ensures SplitFrom(s, 8, DotUpper) == "5  -  Au" + SplitFrom(s, 16, DotUpper)
  {
    assert SplitFrom(s, 8, DotUpper) == "5" + SplitFrom(s, 9, DotUpper);
    assert SplitFrom(s, 9, DotUpper) == " " + SplitFrom(s, 10, DotUpper);
    assert SplitFrom(s, 10, DotUpper) == " " + SplitFrom(s, 11, DotUpper);
    assert SplitFrom(s, 11, DotUpper) == "-" + SplitFrom(s, 12, DotUpper);
    assert SplitFrom(s, 12, DotUpper) == " " + SplitFrom(s, 13, DotUpper);
    assert SplitFrom(s, 13, DotUpper) == " " + SplitFrom(s, 14, DotUpper);
    assert SplitFrom(s, 14, DotUpper) == "A" + SplitFrom(s, 15, DotUpper);
    assert SplitFrom(s, 15, DotUpper) == "u" + SplitFrom(s, 16, DotUpper);
  }

  lemma {:induction false} MonthRangeDotUpperPart2(s: string)
    requires MonthRangeText2(s)
    ensures SplitFrom(s, 16, DotUpper) == "g  2025" + SplitFrom(s, 23, DotUpper)
  {
    assert SplitFrom(s, 16, DotUpper) == "g" + SplitFrom(s, 17, DotUpper);
    assert SplitFrom(s, 17, DotUpper) == " " + SplitFrom(s, 18, DotUpper);
    assert SplitFrom(s, 18, DotUpper) == " " + SplitFrom(s, 19, DotUpper);
    assert SplitFrom(s, 19, DotUpper) == "2" + SplitFrom(s, 20, DotUpper);
    assert SplitFrom(s, 20, DotUpper) == "0" + SplitFrom(s, 21, DotUpper);
    assert SplitFrom(s, 21, DotUpper) == "2" + SplitFrom(s, 22, DotUpper);
    assert SplitFrom(s, 22, DotUpper) == "5" + SplitFrom(s, 23, DotUpper);
  }

  lemma {:induction false} MonthRangeDotUpper(s: string)
    requires MonthRangeText2(s)
    ensures MonthRangeText2(SplitPass(s, DotUpper))
  {
    MonthRangeDotUpperPart0(s);
    MonthRangeDotUpperPart1(s);
    MonthRangeDotUpperPart2(s);
    assert SplitFrom(s, 23, DotUpper) == [];
  }

  lemma {:induction false} MonthRangeCommaLetterPart0(s: string)
    requires MonthRangeText2(s)
    ensures SplitFrom(s, 0, CommaLetter) == "May  202" + SplitFrom(s, 8, CommaLetter)
  {
    assert SplitFrom(s, 0, CommaLetter) == "M" + SplitFrom(s, 1, CommaLetter);
    assert SplitFrom(s, 1, CommaLetter) == "a" + SplitFrom(s, 2, CommaLetter);
    assert SplitFrom(s, 2, CommaLetter) == "y" + SplitFrom(s, 3, CommaLetter);
    assert SplitFrom(s, 3, CommaLetter) == " " + SplitFrom(s, 4, CommaLetter);
    assert SplitFrom(s, 4, CommaLetter) == " " + SplitFrom(s, 5, CommaLetter);
    assert SplitFrom(s, 5, CommaLetter) == "2" + SplitFrom(s, 6, CommaLetter);
    assert SplitFrom(s, 6, CommaLetter) == "0" + SplitFrom(s, 7, CommaLetter);
    assert SplitFrom(s, 7, CommaLetter) == "2" + SplitFrom(s, 8, CommaLetter);
  }

  lemma {:induction false} MonthRangeCommaLetterPart1(s: string)
    requires MonthRangeText2(s)
    ensures SplitFrom(s, 8, CommaLetter) == "5  -  Au" + SplitFrom(s, 16, CommaLetter)
  {
    assert SplitFrom(s, 8, CommaLetter) == "5" + SplitFrom(s, 9, CommaLetter);
    assert SplitFrom(s, 9, CommaLetter) == " " + SplitFrom(s, 10, CommaLetter);
    assert SplitFrom(s, 10, CommaLetter) == " " + SplitFrom(s, 11, CommaLetter);
    assert SplitFrom(s, 11, CommaLetter) == "-" + SplitFrom(s, 12, CommaLetter);
    assert SplitFrom(s, 12, CommaLetter) == " " + SplitFrom(s, 13, CommaLetter);
    assert SplitFrom(s, 13, CommaLetter) == " " + SplitFrom(s, 14, CommaLetter);
    assert SplitFrom(s, 14, CommaLetter) == "A" + SplitFrom(s, 15, CommaLetter);
    assert SplitFrom(s, 15, CommaLetter) == "u" + SplitFrom(s, 16, CommaLetter);
  }

  lemma {:induction false} MonthRangeCommaLetterPart2(s: string)
    requires MonthRangeText2(s)
    ensures SplitFrom(s, 16, CommaLetter) == "g  2025" + SplitFrom(s, 23, CommaLetter)
  {
    assert SplitFrom(s, 16, CommaLetter) == "g" + SplitFrom(s, 17, CommaLetter);
    assert SplitFrom(s, 17, CommaLetter) == " " + SplitFrom(s, 18, CommaLetter);
    assert SplitFrom(s, 18, CommaLetter) == " " + SplitFrom(s, 19, CommaLetter);
    assert SplitFrom(s, 19, CommaLetter) == "2" + SplitFrom(s, 20, CommaLetter);
    assert SplitFrom(s, 20, CommaLetter) == "0" + SplitFrom(s, 21, CommaLetter);
    assert SplitFrom(s, 21, CommaLetter) == "2" + SplitFrom(s, 22, CommaLetter);
    assert SplitFrom(s, 22, CommaLetter) == "5" + SplitFrom(s, 23, CommaLetter);
  }

  lemma {:induction false} MonthRangeCommaLetter(s: string)
    requires MonthRangeText2(s)
    ensures MonthRangeText2(SplitPass(s, CommaLetter))
  {
    MonthRangeCommaLetterPart0(s);
    MonthRangeCommaLetterPart1(s);
    MonthRangeCommaLetterPart2(s);
    assert SplitFrom(s, 23, CommaLetter) == [];
  }

  lemma {:induction false} MonthRangeLetterParenPart0(s: string)
    requires MonthRangeText2(s)
    ensures SplitFrom(s, 0, LetterParen) == "May  202" + SplitFrom(s, 8, LetterParen)
  {
    assert SplitFrom(s, 0, LetterParen) == "M" + SplitFrom(s, 1, LetterParen);
    assert SplitFrom(s, 1, LetterParen) == "a" + SplitFrom(s, 2, LetterParen);
    assert SplitFrom(s, 2, LetterParen) == "y" + SplitFrom(s, 3, LetterParen);
    assert SplitFrom(s, 3, LetterParen) == " " + SplitFrom(s, 4, LetterParen);
    assert SplitFrom(s, 4, LetterParen) == " " + SplitFrom(s, 5, LetterParen);
    assert SplitFrom(s, 5, LetterParen) == "2" + SplitFrom(s, 6, LetterParen);
    assert SplitFrom(s, 6, LetterParen) == "0" + SplitFrom(s, 7, LetterParen);
    assert SplitFrom(s, 7, LetterParen) == "2" + SplitFrom(s, 8, LetterParen);
  }

  lemma {:induction false} MonthRangeLetterParenPart1(s: string)
    requires MonthRangeText2(s)
    ensures SplitFrom(s, 8, LetterParen) == "5  -  Au" + SplitFrom(s, 16, LetterParen)
  {
    assert SplitFrom(s, 8, LetterParen) == "5" + SplitFrom(s, 9, LetterParen);
    assert SplitFrom(s, 9, LetterParen) == " " + SplitFrom(s, 10, LetterParen);
    assert SplitFrom(s, 10, LetterParen) == " " + SplitFrom(s, 11, LetterParen);
    assert SplitFrom(s, 11, LetterParen) == "-" + SplitFrom(s, 12, LetterParen);
    assert SplitFrom(s, 12, LetterParen) == " " + SplitFrom(s, 13, LetterParen);
    assert SplitFrom(s, 13, LetterParen) == " " + SplitFrom(s, 14, LetterParen);
    assert SplitFrom(s, 14, LetterParen) == "A" + SplitFrom(s, 15, LetterParen);
    assert SplitFrom(s, 15, LetterParen) == "u" + SplitFrom(s, 16, LetterParen);
  }

  lemma {:induction false} MonthRangeLetterParenPart2(s: string)
    requires MonthRangeText2(s)
    ensures SplitFrom(s, 16, LetterParen) == "g  2025" + SplitFrom(s, 23, LetterParen)
  {
    assert SplitFrom(s, 16, LetterParen) == "g" + SplitFrom(s, 17, LetterParen);
    assert SplitFrom(s, 17, LetterParen) == " " + SplitFrom(s, 18, LetterParen);
    assert SplitFrom(s, 18, LetterParen) == " " + SplitFrom(s, 19, LetterParen);
    assert SplitFrom(s, 19, LetterParen) == "2" + SplitFrom(s, 20, LetterParen);
    assert SplitFrom(s, 20, LetterParen) == "0" + SplitFrom(s, 21, LetterParen);
    assert SplitFrom(s, 21, LetterParen) == "2" + SplitFrom(s, 22, LetterParen);
    assert SplitFrom(s, 22, LetterParen) == "5" + SplitFrom(s, 23, LetterParen);
  }

  lemma {:induction false} MonthRangeLetterParen(s: string)
    requires MonthRangeText2(s)
    ensures MonthRangeText2(SplitPass(s, LetterParen))
  {
    MonthRangeLetterParenPart0(s);
    MonthRangeLetterParenPart1(s);
    MonthRangeLetterParenPart2(s);
    assert SplitFrom(s, 23, LetterParen) == [];
  }

  lemma {:induction false} MonthRangeParenLetterPart0(s: string)
    requires MonthRangeText2(s)
    ensures SplitFrom(s, 0, ParenLetter) == "May  202" + SplitFrom(s, 8, ParenLetter)
  {
    assert SplitFrom(s, 0, ParenLetter) == "M" + SplitFrom(s, 1, ParenLetter);
    assert SplitFrom(s, 1, ParenLetter) == "a" + SplitFrom(s, 2, ParenLetter);
    assert SplitFrom(s, 2, ParenLetter) == "y" + SplitFrom(s, 3, ParenLetter);
    assert SplitFrom(s, 3, ParenLetter) == " " + SplitFrom(s, 4, ParenLetter);
    assert SplitFrom(s, 4, ParenLetter) == " " + SplitFrom(s, 5, ParenLetter);
    assert SplitFrom(s, 5, ParenLetter) == "2" + SplitFrom(s, 6, ParenLetter);
    assert SplitFrom(s, 6, ParenLetter) == "0" + SplitFrom(s, 7, ParenLetter);
    assert SplitFrom(s, 7, ParenLetter) == "2" + SplitFrom(s, 8, ParenLetter);
  }

  lemma {:induction false} MonthRangeParenLetterPart1(s: string)
    requires MonthRangeText2(s)
    ensures SplitFrom(s, 8, ParenLetter) == "5  -  Au" + SplitFrom(s, 16, ParenLetter)
  {
    assert SplitFrom(s, 8, ParenLetter) == "5" + SplitFrom(s, 9, ParenLetter);
    assert SplitFrom(s, 9, ParenLetter) == " " + SplitFrom(s, 10, ParenLetter);
    assert SplitFrom(s, 10, ParenLetter) == " " + SplitFrom(s, 11, ParenLetter);
    assert SplitFrom(s, 11, ParenLetter) == "-" + SplitFrom(s, 12, ParenLetter);
    assert SplitFrom(s, 12, ParenLetter) == " " + SplitFrom(s, 13, ParenLetter);
    assert SplitFrom(s, 13, ParenLetter) == " " + SplitFrom(s, 14, ParenLetter);
    assert SplitFrom(s, 14, ParenLetter) == "A" + SplitFrom(s, 15, ParenLetter);
    assert SplitFrom(s, 15, ParenLetter) == "u" + SplitFrom(s, 16, ParenLetter);
  }

  lemma {:induction false} MonthRangeParenLetterPart2(s: string)
    requires MonthRangeText2(s)
    ensures SplitFrom(s, 16, ParenLetter) == "g  2025" + SplitFrom(s, 23, ParenLetter)
  {
    assert SplitFrom(s, 16, ParenLetter) == "g" + SplitFrom(s, 17, ParenLetter);
    assert SplitFrom(s, 17, ParenLetter) == " " + SplitFrom(s, 18, ParenLetter);
    assert SplitFrom(s, 18, ParenLetter) == " " + SplitFrom(s, 19, ParenLetter);
    assert SplitFrom(s, 19, ParenLetter) == "2" + SplitFrom(s, 20, ParenLetter);
    assert SplitFrom(s, 20, ParenLetter) == "0" + SplitFrom(s, 21, ParenLetter);
    assert SplitFrom(s, 21, ParenLetter) == "2" + SplitFrom(s, 22, ParenLetter);
    assert SplitFrom(s, 22, ParenLetter) == "5" + SplitFrom(s, 23, ParenLetter);
  }

  lemma {:induction false} MonthRangeParenLetter(s: string)
    requires MonthRangeText2(s)
    ensures MonthRangeText2(SplitPass(s, ParenLetter))
  {
    MonthRangeParenLetterPart0(s);
    MonthRangeParenLetterPart1(s);
    MonthRangeParenLetterPart2(s);
    assert SplitFrom(s, 23, ParenLetter) == [];
  }

  lemma {:induction false} MonthRangeLowerUpperPart0(s: string)
    requires MonthRangeText2(s)
    ensures SplitFrom(s, 0, LowerUpper) == "May  202" + SplitFrom(s, 8, LowerUpper)
  {
    assert SplitFrom(s, 0, LowerUpper) == "M" + SplitFrom(s, 1, LowerUpper);
    assert SplitFrom(s, 1, LowerUpper) == "a" + SplitFrom(s, 2, LowerUpper);
    assert SplitFrom(s, 2, LowerUpper) == "y" + SplitFrom(s, 3, LowerUpper);
    assert SplitFrom(s, 3, LowerUpper) == " " + SplitFrom(s, 4, LowerUpper);
    assert SplitFrom(s, 4, LowerUpper) == " " + SplitFrom(s, 5, LowerUpper);
    assert SplitFrom(s, 5, LowerUpper) == "2" + SplitFrom(s, 6, LowerUpper);
    assert SplitFrom(s, 6, LowerUpper) == "0" + SplitFrom(s, 7, LowerUpper);
    assert SplitFrom(s, 7, LowerUpper) == "2" + SplitFrom(s, 8, LowerUpper);
  }

  lemma {:induction false} MonthRangeLowerUpperPart1(s: string)
    requires MonthRangeText2(s)
    ensures SplitFrom(s, 8, LowerUpper) == "5  -  Au" + SplitFrom(s, 16, LowerUpper)
  {
    assert SplitFrom(s, 8, LowerUpper) == "5" + SplitFrom(s, 9, LowerUpper);
    assert SplitFrom(s, 9, LowerUpper) == " " + SplitFrom(s, 10, LowerUpper);
    assert SplitFrom(s, 10, LowerUpper) == " " + SplitFrom(s, 11, LowerUpper);
    assert SplitFrom(s, 11, LowerUpper) == "-" + SplitFrom(s, 12, LowerUpper);
    assert SplitFrom(s, 12, LowerUpper) == " " + SplitFrom(s, 13, LowerUpper);
    assert SplitFrom(s, 13, LowerUpper) == " " + SplitFrom(s, 14, LowerUpper);
    assert SplitFrom(s, 14, LowerUpper) == "A" + SplitFrom(s, 15, LowerUpper);
    assert SplitFrom(s, 15, LowerUpper) == "u" + SplitFrom(s, 16, LowerUpper);
  }

  lemma {:induction false} MonthRangeLowerUpperPart2(s: string)
    requires MonthRangeText2(s)
    ensures SplitFrom(s, 16, LowerUpper) == "g  2025" + SplitFrom(s, 23, LowerUpper)
  {
    assert SplitFrom(s, 16, LowerUpper) == "g" + SplitFrom(s, 17, LowerUpper);
    assert SplitFrom(s, 17, LowerUpper) == " " + SplitFrom(s, 18, LowerUpper);
    assert SplitFrom(s, 18, LowerUpper) == " " + SplitFrom(s, 19, LowerUpper);
    assert SplitFrom(s, 19, LowerUpper) == "2" + SplitFrom(s, 20, LowerUpper);
    assert SplitFrom(s, 20, LowerUpper) == "0" + SplitFrom(s, 21, LowerUpper);
    assert SplitFrom(s, 21, LowerUpper) == "2" + SplitFrom(s, 22, LowerUpper);
    assert SplitFrom(s, 22, LowerUpper) == "5" + SplitFrom(s, 23, LowerUpper);
  }

  lemma {:induction false} MonthRangeLowerUpper(s: string)
    requires MonthRangeText2(s)
    ensures MonthRangeText2(SplitPass(s, LowerUpper))
  {
    MonthRangeLowerUpperPart0(s);
    MonthRangeLowerUpperPart1(s);
    MonthRangeLowerUpperPart2(s);
    assert SplitFrom(s, 23, LowerUpper) == [];
  }

  /** `s` is "May 2025 - Aug 2025", character by character. */
  predicate MonthRangeText3(s: string) {
    |s| == 19 && s[0] == 'M' && s[1] == 'a' && s[2] == 'y' && s[3] == ' ' && s[4] == '2'
    && s[5] == '0' && s[6] == '2' && s[7] == '5' && s[8] == ' ' && s[9] == '-' && s[10] == ' '
    && s[11] == 'A' && s[12] == 'u' && s[13] == 'g' && s[14] == ' ' && s[15] == '2' && s[16] == '0'
    && s[17] == '2' && s[18] == '5'
  }

  lemma {:induction false} MonthRangeSpacesPart0(s: string)
    requires MonthRangeText2(s)
    ensures SqueezeFrom(s, 0, ' ', 2) == "May" + SqueezeFrom(s, 3, ' ', 2)
  {
    assert SqueezeFrom(s, 0, ' ', 2) == "M" + SqueezeFrom(s, 1, ' ', 2);
    assert SqueezeFrom(s, 1, ' ', 2) == "a" + SqueezeFrom(s, 2, ' ', 2);
    assert SqueezeFrom(s, 2, ' ', 2) == "y" + SqueezeFrom(s, 3, ' ', 2);
  }

  lemma {:induction false} MonthRangeSpacesPart1(s: string)
    requires MonthRangeText2(s)
    ensures SqueezeFrom(s, 3, ' ', 2) == " 20" + SqueezeFrom(s, 7, ' ', 2)
  {
    assert SqueezeFrom(s, 3, ' ', 2) == " " + SqueezeFrom(s, 5, ' ', 2);
    assert SqueezeFrom(s, 5, ' ', 2) == "2" + SqueezeFrom(s, 6, ' ', 2);
    assert SqueezeFrom(s, 6, ' ', 2) == "0" + SqueezeFrom(s, 7, ' ', 2);
  }

  lemma {:induction false} MonthRangeSpacesPart2(s: string)
    requires MonthRangeText2(s)
    ensures SqueezeFrom(s, 7, ' ', 2) == "25 " + SqueezeFrom(s, 11, ' ', 2)
  {
    assert SqueezeFrom(s, 7, ' ', 2) == "2" + SqueezeFrom(s, 8, ' ', 2);
    assert SqueezeFrom(s, 8, ' ', 2) == "5" + SqueezeFrom(s, 9, ' ', 2);
    assert SqueezeFrom(s, 9, ' ', 2) == " " + SqueezeFrom(s, 11, ' ', 2);
  }

  lemma {:induction false} MonthRangeSpacesPart3(s: string)
    requires MonthRangeText2(s)
    ensures SqueezeFrom(s, 11, ' ', 2) == "- A" + SqueezeFrom(s, 15, ' ', 2)
  {
    assert SqueezeFrom(s, 11, ' ', 2) == "-" + SqueezeFrom(s, 12, ' ', 2);
    assert SqueezeFrom(s, 12, ' ', 2) == " " + SqueezeFrom(s, 14, ' ', 2);
    assert SqueezeFrom(s, 14, ' ', 2) == "A" + SqueezeFrom(s, 15, ' ', 2);
  }

  lemma {:induction false} MonthRangeSpacesPart4(s: string)
    requires MonthRangeText2(s)
    ensures SqueezeFrom(s, 15, ' ', 2) == "ug " + SqueezeFrom(s, 19, ' ', 2)
  {
    assert SqueezeFrom(s, 15, ' ', 2) == "u" + SqueezeFrom(s, 16, ' ', 2);
    assert SqueezeFrom(s, 16, ' ', 2) == "g" + SqueezeFrom(s, 17, ' ', 2);
    assert SqueezeFrom(s, 17, ' ', 2) == " " + SqueezeFrom(s, 19, ' ', 2);
  }

  lemma {:induction false} MonthRangeSpacesPart5(s: string)
    requires MonthRangeText2(s)
    ensures SqueezeFrom(s, 19, ' ', 2) == "202" + SqueezeFrom(s, 22, ' ', 2)
  {
    assert SqueezeFrom(s, 19, ' ', 2) == "2" + SqueezeFrom(s, 20, ' ', 2);
    assert SqueezeFrom(s, 20, ' ', 2) == "0" + SqueezeFrom(s, 21, ' ', 2);
    assert SqueezeFrom(s, 21, ' ', 2) == "2" + SqueezeFrom(s, 22, ' ', 2);
  }

  lemma {:induction false} MonthRangeSpacesPart6(s: string)
    requires MonthRangeText2(s)
    ensures SqueezeFrom(s, 22, ' ', 2) == "5" + SqueezeFrom(s, 23, ' ', 2)
  {
    assert SqueezeFrom(s, 22, ' ', 2) == "5" + SqueezeFrom(s, 23, ' ', 2);
  }

  lemma {:induction false} MonthRangeSpaces(s: string)
    requires MonthRangeText2(s)
    ensures MonthRangeText3(Squeeze(s, ' ', 2))
  {
    MonthRangeSpacesPart0(s);
    MonthRangeSpacesPart1(s);
    MonthRangeSpacesPart2(s);
    MonthRangeSpacesPart3(s);
    MonthRangeSpacesPart4(s);
    MonthRangeSpacesPart5(s);
    MonthRangeSpacesPart6(s);
    assert SqueezeFrom(s, 23, ' ', 2) == [];
  }

  lemma {:induction false} MonthRangeNewlinesPart0(s: string)
    requires MonthRangeText3(s)
    ensures SqueezeFrom(s, 0, '\n', 3) == "May" + SqueezeFrom(s, 3, '\n', 3)
  {
    assert SqueezeFrom(s, 0, '\n', 3) == "M" + SqueezeFrom(s, 1, '\n', 3);
    assert SqueezeFrom(s, 1, '\n', 3) == "a" + SqueezeFrom(s, 2, '\n', 3);
    assert SqueezeFrom(s, 2, '\n', 3) == "y" + SqueezeFrom(s, 3, '\n', 3);
  }

  lemma {:induction false} MonthRangeNewlinesPart1(s: string)
    requires MonthRangeText3(s)
    ensures SqueezeFrom(s, 3, '\n', 3) == " 20" + SqueezeFrom(s, 6, '\n', 3)
  {
    assert SqueezeFrom(s, 3, '\n', 3) == " " + SqueezeFrom(s, 4, '\n', 3);
    assert SqueezeFrom(s, 4, '\n', 3) == "2" + SqueezeFrom(s, 5, '\n', 3);
    assert SqueezeFrom(s, 5, '\n', 3) == "0" + SqueezeFrom(s, 6, '\n', 3);
  }

  lemma {:induction false} MonthRangeNewlinesPart2(s: string)
    requires MonthRangeText3(s)
    ensures SqueezeFrom(s, 6, '\n', 3) == "25 " + SqueezeFrom(s, 9, '\n', 3)
  {
    assert SqueezeFrom(s, 6, '\n', 3) == "2" + SqueezeFrom(s, 7, '\n', 3);
    assert SqueezeFrom(s, 7, '\n', 3) == "5" + SqueezeFrom(s, 8, '\n', 3);
    assert SqueezeFrom(s, 8, '\n', 3) == " " + SqueezeFrom(s, 9, '\n', 3);
  }

  lemma {:induction false} MonthRangeNewlinesPart3(s: string)
    requires MonthRangeText3(s)
    ensures SqueezeFrom(s, 9, '\n', 3) == "- A" + SqueezeFrom(s, 12, '\n', 3)
  {
    assert SqueezeFrom(s, 9, '\n', 3) == "-" + SqueezeFrom(s, 10, '\n', 3);
    assert SqueezeFrom(s, 10, '\n', 3) == " " + SqueezeFrom(s, 11, '\n', 3);
    assert SqueezeFrom(s, 11, '\n', 3) == "A" + SqueezeFrom(s, 12, '\n', 3);
  }

  lemma {:induction false} MonthRangeNewlinesPart4(s: string)
    requires MonthRangeText3(s)
    ensures SqueezeFrom(s, 12, '\n', 3) == "ug " + SqueezeFrom(s, 15, '\n', 3)
  {
    assert SqueezeFrom(s, 12, '\n', 3) == "u" + SqueezeFrom(s, 13, '\n', 3);
    assert SqueezeFrom(s, 13, '\n', 3) == "g" + SqueezeFrom(s, 14, '\n', 3);
    assert SqueezeFrom(s, 14, '\n', 3) == " " + SqueezeFrom(s, 15, '\n', 3);
  }

  lemma {:induction false} MonthRangeNewlinesPart5(s: string)
    requires MonthRangeText3(s)
    ensures SqueezeFrom(s, 15, '\n', 3) == "202" + SqueezeFrom(s, 18, '\n', 3)
  {
    assert SqueezeFrom(s, 15, '\n', 3) == "2" + SqueezeFrom(s, 16, '\n', 3);
    assert SqueezeFrom(s, 16, '\n', 3) == "0" + SqueezeFrom(s, 17, '\n', 3);
    assert SqueezeFrom(s, 17, '\n', 3) == "2" + SqueezeFrom(s, 18, '\n', 3);
  }

  lemma {:induction false} MonthRangeNewlinesPart6(s: string)
    requires MonthRangeText3(s)
    ensures SqueezeFrom(s, 18, '\n', 3) == "5" + SqueezeFrom(s, 19, '\n', 3)
  {
    assert SqueezeFrom(s, 18, '\n', 3) == "5" + SqueezeFrom(s, 19, '\n', 3);
  }

  lemma {:induction false} MonthRangeNewlines(s: string)
    requires MonthRangeText3(s)
    ensures MonthRangeText3(Squeeze(s, '\n', 3))
  {
    MonthRangeNewlinesPart0(s);
    MonthRangeNewlinesPart1(s);
    MonthRangeNewlinesPart2(s);
    MonthRangeNewlinesPart3(s);
    MonthRangeNewlinesPart4(s);
    MonthRangeNewlinesPart5(s);
    MonthRangeNewlinesPart6(s);
    assert SqueezeFrom(s, 19, '\n', 3) == [];
  }

  lemma {:induction false} MonthRangeStrip(s: string)
    requires MonthRangeText3(s)
    ensures MonthRangeText3(Strip(s))
  {
    assert LeadingSpace(s) == 0;
    assert TrailingSpace(s) == 0;
    assert s[0..][..|s|] == s;
  }

  /** Line 207: the expected result. */
  lemma CleanMonthRange(text: string)
    requires MonthRangeText0(text)
    ensures MonthRangeText3(Cleaned(text))
  {
    MonthRangeCollapsed(text);
    var t0 := CollapseTimes(text, CollapseRounds);
    MonthRangeDotUpper(t0);
    var t1 := SplitPass(t0, DotUpper);
    MonthRangeCommaLetter(t1);
    var t2 := SplitPass(t1, CommaLetter);
    MonthRangeLetterParen(t2);
    var t3 := SplitPass(t2, LetterParen);
    MonthRangeParenLetter(t3);
    var t4 := SplitPass(t3, ParenLetter);
    MonthRangeLowerUpper(t4);
    var t5 := SplitPass(t4, LowerUpper);
    MonthRangeSpaces(t5);
    var t6 := Squeeze(t5, ' ', 2);
    MonthRangeNewlines(t6);
    var t7 := Squeeze(t6, '\n', 3);
    MonthRangeStrip(t7);
    assert Cleaned(text) == Strip(t7);
  }

  /** `s` is "G e e k s f o r G e e k s", character by character. */
  predicate GeeksText0(s: string) {
    |s| == 25 && s[0] == 'G' && s[1] == ' ' && s[2] == 'e' && s[3] == ' ' && s[4] == 'e'
    && s[5] == ' ' && s[6] == 'k' && s[7] == ' ' && s[8] == 's' && s[9] == ' ' && s[10] == 'f'
    && s[11] == ' ' && s[12] == 'o' && s[13] == ' ' && s[14] == 'r' && s[15] == ' ' && s[16] == 'G'
    && s[17] == ' ' && s[18] == 'e' && s[19] == ' ' && s[20] == 'e' && s[21] == ' ' && s[22] == 'k'
    && s[23] == ' ' && s[24] == 's'
  }

  /** `s` is "Ge ek sf or Ge ek s", character by character. */
  predicate GeeksText1(s: string) {
    |s| == 19 && s[0] == 'G' && s[1] == 'e' && s[2] == ' ' && s[3] == 'e' && s[4] == 'k'
    && s[5] == ' ' && s[6] == 's' && s[7] == 'f' && s[8] == ' ' && s[9] == 'o' && s[10] == 'r'
    && s[11] == ' ' && s[12] == 'G' && s[13] == 'e' && s[14] == ' ' && s[15] == 'e' && s[16] == 'k'
    && s[17] == ' ' && s[18] == 's'
  }

  lemma {:induction false} GeeksCollapse0Part0(s: string)
    requires GeeksText0(s)
    ensures CollapseFrom(s, 0) == "Ge ek sf or " + CollapseFrom(s, 16)
  {
    assert CollapseFrom(s, 0) == "Ge" + CollapseFrom(s, 3);
    assert CollapseFrom(s, 3) == " " + CollapseFrom(s, 4);
    assert CollapseFrom(s, 4) == "ek" + CollapseFrom(s, 7);
    assert CollapseFrom(s, 7) == " " + CollapseFrom(s, 8);
    assert CollapseFrom(s, 8) == "sf" + CollapseFrom(s, 11);
    assert CollapseFrom(s, 11) == " " + CollapseFrom(s, 12);
    assert CollapseFrom(s, 12) == "or" + CollapseFrom(s, 15);
    assert CollapseFrom(s, 15) == " " + CollapseFrom(s, 16);
  }

  lemma {:induction false} GeeksCollapse0Part1(s: string)
    requires GeeksText0(s)
    ensures CollapseFrom(s, 16) == "Ge ek s" + CollapseFrom(s, 25)
  {
    assert CollapseFrom(s, 16) == "Ge" + CollapseFrom(s, 19);
    assert CollapseFrom(s, 19) == " " + CollapseFrom(s, 20);
    assert CollapseFrom(s, 20) == "ek" + CollapseFrom(s, 23);
    assert CollapseFrom(s, 23) == " " + CollapseFrom(s, 24);
    assert CollapseFrom(s, 24) == "s" + CollapseFrom(s, 25);
  }

  lemma {:induction false} GeeksCollapse0(s: string)
    requires GeeksText0(s)
    ensures GeeksText1(CollapsePass(s))
  {
    GeeksCollapse0Part0(s);
    GeeksCollapse0Part1(s);
    assert CollapseFrom(s, 25) == [];
  }

  /** `s` is "GeeksforGeeks", character by character. */
  predicate GeeksText2(s: string) {
    |s| == 13 && s[0] == 'G' && s[1] == 'e' && s[2] == 'e' && s[3] == 'k' && s[4] == 's'
    && s[5] == 'f' && s[6] == 'o' && s[7] == 'r' && s[8] == 'G' && s[9] == 'e' && s[10] == 'e'
    && s[11] == 'k' && s[12] == 's'
  }

  lemma {:induction false} GeeksCollapse1Part0(s: string)
    requires GeeksText1(s)
    ensures CollapseFrom(s, 0) == "GeeksforGeeks" + CollapseFrom(s, 19)
  {
    assert CollapseFrom(s, 0) == "G" + CollapseFrom(s, 1);
    assert CollapseFrom(s, 1) == "ee" + CollapseFrom(s, 4);
    assert CollapseFrom(s, 4) == "ks" + CollapseFrom(s, 7);
    assert CollapseFrom(s, 7) == "fo" + CollapseFrom(s, 10);
    assert CollapseFrom(s, 10) == "rG" + CollapseFrom(s, 13);
    assert CollapseFrom(s, 13) == "ee" + CollapseFrom(s, 16);
    assert CollapseFrom(s, 16) == "ks" + CollapseFrom(s, 19);
  }

  lemma {:induction false} GeeksCollapse1(s: string)
    requires GeeksText1(s)
    ensures GeeksText2(CollapsePass(s))
  {
    GeeksCollapse1Part0(s);
    assert CollapseFrom(s, 19) == [];
  }

  lemma {:induction false} GeeksCollapse2Part0(s: string)
    requires GeeksText2(s)
    ensures CollapseFrom(s, 0) == "Geeksfor" + CollapseFrom(s, 8)
  {
    assert CollapseFrom(s, 0) == "G" + CollapseFrom(s, 1);
    assert CollapseFrom(s, 1) == "e" + CollapseFrom(s, 2);
    assert CollapseFrom(s, 2) == "e" + CollapseFrom(s, 3);
    assert CollapseFrom(s, 3) == "k" + CollapseFrom(s, 4);
    assert CollapseFrom(s, 4) == "s" + CollapseFrom(s, 5);
    assert CollapseFrom(s, 5) == "f" + CollapseFrom(s, 6);
    assert CollapseFrom(s, 6) == "o" + CollapseFrom(s, 7);
    assert CollapseFrom(s, 7) == "r" + CollapseFrom(s, 8);
  }

  lemma {:induction false} GeeksCollapse2Part1(s: string)
    requires GeeksText2(s)
    ensures CollapseFrom(s, 8) == "Geeks" + CollapseFrom(s, 13)
  {
    assert CollapseFrom(s, 8) == "G" + CollapseFrom(s, 9);
    assert CollapseFrom(s, 9) == "e" + CollapseFrom(s, 10);
    assert CollapseFrom(s, 10) == "e" + CollapseFrom(s, 11);
    assert CollapseFrom(s, 11) == "k" + CollapseFrom(s, 12);
    assert CollapseFrom(s, 12) == "s" + CollapseFrom(s, 13);
  }

  lemma {:induction false} GeeksCollapse2(s: string)
    requires GeeksText2(s)
    ensures GeeksText2(CollapsePass(s))
  {
    GeeksCollapse2Part0(s);
    GeeksCollapse2Part1(s);
    assert CollapseFrom(s, 13) == [];
  }

  lemma GeeksCollapsed(text: string)
    requires GeeksText0(text)
    ensures GeeksText2(CollapseTimes(text, CollapseRounds))
  {
    GeeksCollapse0(text);
    var c1 := CollapsePass(text);
    assert CollapseTimes(text, 1) == c1;
    GeeksCollapse1(c1);
    var c2 := CollapsePass(c1);
    assert CollapseTimes(text, 2) == c2;
    GeeksCollapse2(c2);
    var c3 := CollapsePass(c2);
    assert CollapseTimes(text, 3) == c3;
    CollapseTimesSettles(text, 2, CollapseRounds);
  }

  lemma {:induction false} GeeksDotUpperPart0(s: string)
    requires GeeksText2(s)
    ensures SplitFrom(s, 0, DotUpper) == "Geeksfor" + SplitFrom(s, 8, DotUpper)
  {
    assert SplitFrom(s, 0, DotUpper) == "G" + SplitFrom(s, 1, DotUpper);
    assert SplitFrom(s, 1, DotUpper) == "e" + SplitFrom(s, 2, DotUpper);
    assert SplitFrom(s, 2, DotUpper) == "e" + SplitFrom(s, 3, DotUpper);
    assert SplitFrom(s, 3, DotUpper) == "k" + SplitFrom(s, 4, DotUpper);
    assert SplitFrom(s, 4, DotUpper) == "s" + SplitFrom(s, 5, DotUpper);
    assert SplitFrom(s, 5, DotUpper) == "f" + SplitFrom(s, 6, DotUpper);
    assert SplitFrom(s, 6, DotUpper) == "o" + SplitFrom(s, 7, DotUpper);
    assert SplitFrom(s, 7, DotUpper) == "r" + SplitFrom(s, 8, DotUpper);
  }

  lemma {:induction false} GeeksDotUpperPart1(s: string)
    requires GeeksText2(s)
    ensures SplitFrom(s, 8, DotUpper) == "Geeks" + SplitFrom(s, 13, DotUpper)
  {
    assert SplitFrom(s, 8, DotUpper) == "G" + SplitFrom(s, 9, DotUpper);
    assert SplitFrom(s, 9, DotUpper) == "e" + SplitFrom(s, 10, DotUpper);
    assert SplitFrom(s, 10, DotUpper) == "e" + SplitFrom(s, 11, DotUpper);
    assert SplitFrom(s, 11, DotUpper) == "k" + SplitFrom(s, 12, DotUpper);
    assert SplitFrom(s, 12, DotUpper) == "s" + SplitFrom(s, 13, DotUpper);
  }

  lemma {:induction false} GeeksDotUpper(s: string)
    requires GeeksText2(s)
    ensures GeeksText2(SplitPass(s, DotUpper))
  {
    GeeksDotUpperPart0(s);
    GeeksDotUpperPart1(s);
    assert SplitFrom(s, 13, DotUpper) == [];
  }

  lemma {:induction false} GeeksCommaLetterPart0(s: string)
    requires GeeksText2(s)
    ensures SplitFrom(s, 0, CommaLetter) == "Geeksfor" + SplitFrom(s, 8, CommaLetter)
  {
    assert SplitFrom(s, 0, CommaLetter) == "G" + SplitFrom(s, 1, CommaLetter);
    assert SplitFrom(s, 1, CommaLetter) == "e" + SplitFrom(s, 2, CommaLetter);
    assert SplitFrom(s, 2, CommaLetter) == "e" + SplitFrom(s, 3, CommaLetter);
    assert SplitFrom(s, 3, CommaLetter) == "k" + SplitFrom(s, 4, CommaLetter);
    assert SplitFrom(s, 4, CommaLetter) == "s" + SplitFrom(s, 5, CommaLetter);
    assert SplitFrom(s, 5, CommaLetter) == "f" + SplitFrom(s, 6, CommaLetter);
    assert SplitFrom(s, 6, CommaLetter) == "o" + SplitFrom(s, 7, CommaLetter);
    assert SplitFrom(s, 7, CommaLetter) == "r" + SplitFrom(s, 8, CommaLetter);
  }

  lemma {:induction false} GeeksCommaLetterPart1(s: string)
    requires GeeksText2(s)
    ensures SplitFrom(s, 8, CommaLetter) == "Geeks" + SplitFrom(s, 13, CommaLetter)
  {
    assert SplitFrom(s, 8, CommaLetter) == "G" + SplitFrom(s, 9, CommaLetter);
    assert SplitFrom(s, 9, CommaLetter) == "e" + SplitFrom(s, 10, CommaLetter);
    assert SplitFrom(s, 10, CommaLetter) == "e" + SplitFrom(s, 11, CommaLetter);
    assert SplitFrom(s, 11, CommaLetter) == "k" + SplitFrom(s, 12, CommaLetter);
    assert SplitFrom(s, 12, CommaLetter) == "s" + SplitFrom(s, 13, CommaLetter);
  }

  lemma {:induction false} GeeksCommaLetter(s: string)
    requires GeeksText2(s)
    ensures GeeksText2(SplitPass(s, CommaLetter))
  {
    GeeksCommaLetterPart0(s);
    GeeksCommaLetterPart1(s);
    assert SplitFrom(s, 13, CommaLetter) == [];
  }

  lemma {:induction false} GeeksLetterParenPart0(s: string)
    requires GeeksText2(s)
    ensures SplitFrom(s, 0, LetterParen) == "Geeksfor" + SplitFrom(s, 8, LetterParen)
  {
    assert SplitFrom(s, 0, LetterParen) == "G" + SplitFrom(s, 1, LetterParen);
    assert SplitFrom(s, 1, LetterParen) == "e" + SplitFrom(s, 2, LetterParen);
    assert SplitFrom(s, 2, LetterParen) == "e" + SplitFrom(s, 3, LetterParen);
    assert SplitFrom(s, 3, LetterParen) == "k" + SplitFrom(s, 4, LetterParen);
    assert SplitFrom(s, 4, LetterParen) == "s" + SplitFrom(s, 5, LetterParen);
    assert SplitFrom(s, 5, LetterParen) == "f" + SplitFrom(s, 6, LetterParen);
    assert SplitFrom(s, 6, LetterParen) == "o" + SplitFrom(s, 7, LetterParen);
    assert SplitFrom(s, 7, LetterParen) == "r" + SplitFrom(s, 8, LetterParen);
  }

  lemma {:induction false} GeeksLetterParenPart1(s: string)
    requires GeeksText2(s)
    ensures SplitFrom(s, 8, LetterParen) == "Geeks" + SplitFrom(s, 13, LetterParen)
  {
    assert SplitFrom(s, 8, LetterParen) == "G" + SplitFrom(s, 9, LetterParen);
    assert SplitFrom(s, 9, LetterParen) == "e" + SplitFrom(s, 10, LetterParen);
    assert SplitFrom(s, 10, LetterParen) == "e" + SplitFrom(s, 11, LetterParen);
    assert SplitFrom(s, 11, LetterParen) == "k" + SplitFrom(s, 12, LetterParen);
    assert SplitFrom(s, 12, LetterParen) == "s" + SplitFrom(s, 13, LetterParen);
  }

  lemma {:induction false} GeeksLetterParen(s: string)
    requires GeeksText2(s)
    ensures GeeksText2(SplitPass(s, LetterParen))
  {
    GeeksLetterParenPart0(s);
    GeeksLetterParenPart1(s);
    assert SplitFrom(s, 13, LetterParen) == [];
  }

  lemma {:induction false} GeeksParenLetterPart0(s: string)
    requires GeeksText2(s)
    ensures SplitFrom(s, 0, ParenLetter) == "Geeksfor" + SplitFrom(s, 8, ParenLetter)
  {
    assert SplitFrom(s, 0, ParenLetter) == "G" + SplitFrom(s, 1, ParenLetter);
    assert SplitFrom(s, 1, ParenLetter) == "e" + SplitFrom(s, 2, ParenLetter);
    assert SplitFrom(s, 2, ParenLetter) == "e" + SplitFrom(s, 3, ParenLetter);
    assert SplitFrom(s, 3, ParenLetter) == "k" + SplitFrom(s, 4, ParenLetter);
    assert SplitFrom(s, 4, ParenLetter) == "s" + SplitFrom(s, 5, ParenLetter);
    assert SplitFrom(s, 5, ParenLetter) == "f" + SplitFrom(s, 6, ParenLetter);
    assert SplitFrom(s, 6, ParenLetter) == "o" + SplitFrom(s, 7, ParenLetter);
    assert SplitFrom(s, 7, ParenLetter) == "r" + SplitFrom(s, 8, ParenLetter);
  }

  lemma {:induction false} GeeksParenLetterPart1(s: string)
    requires GeeksText2(s)
    ensures SplitFrom(s, 8, ParenLetter) == "Geeks" + SplitFrom(s, 13, ParenLetter)
  {
    assert SplitFrom(s, 8, ParenLetter) == "G" + SplitFrom(s, 9, ParenLetter);
    assert SplitFrom(s, 9, ParenLetter) == "e" + SplitFrom(s, 10, ParenLetter);
    assert SplitFrom(s, 10, ParenLetter) == "e" + SplitFrom(s, 11, ParenLetter);
    assert SplitFrom(s, 11, ParenLetter) == "k" + SplitFrom(s, 12, ParenLetter);
    assert SplitFrom(s, 12, ParenLetter) == "s" + SplitFrom(s, 13, ParenLetter);
  }

  lemma {:induction false} GeeksParenLetter(s: string)
    requires GeeksText2(s)
    ensures GeeksText2(SplitPass(s, ParenLetter))
  {
    GeeksParenLetterPart0(s);
    GeeksParenLetterPart1(s);
    assert SplitFrom(s, 13, ParenLetter) == [];
  }

  /** `s` is "Geeksfor Geeks", character by character. */
  predicate GeeksText3(s: string) {
    |s| == 14 && s[0] == 'G' && s[1] == 'e' && s[2] == 'e' && s[3] == 'k' && s[4] == 's'
    && s[5] == 'f' && s[6] == 'o' && s[7] == 'r' && s[8] == ' ' && s[9] == 'G' && s[10] == 'e'
    && s[11] == 'e' && s[12] == 'k' && s[13] == 's'
  }

  lemma {:induction false} GeeksLowerUpperPart0(s: string)
    requires GeeksText2(s)
    ensures SplitFrom(s, 0, LowerUpper) == "Geeksfor G" + SplitFrom(s, 9, LowerUpper)
  {
    assert SplitFrom(s, 0, LowerUpper) == "G" + SplitFrom(s, 1, LowerUpper);
    assert SplitFrom(s, 1, LowerUpper) == "e" + SplitFrom(s, 2, LowerUpper);
    assert SplitFrom(s, 2, LowerUpper) == "e" + SplitFrom(s, 3, LowerUpper);
    assert SplitFrom(s, 3, LowerUpper) == "k" + SplitFrom(s, 4, LowerUpper);
    assert SplitFrom(s, 4, LowerUpper) == "s" + SplitFrom(s, 5, LowerUpper);
    assert SplitFrom(s, 5, LowerUpper) == "f" + SplitFrom(s, 6, LowerUpper);
    assert SplitFrom(s, 6, LowerUpper) == "o" + SplitFrom(s, 7, LowerUpper);
    assert SplitFrom(s, 7, LowerUpper) == "r G" + SplitFrom(s, 9, LowerUpper);
  }

  lemma {:induction false} GeeksLowerUpperPart1(s: string)
    requires GeeksText2(s)
    ensures SplitFrom(s, 9, LowerUpper) == "eeks" + SplitFrom(s, 13, LowerUpper)
  {
    assert SplitFrom(s, 9, LowerUpper) == "e" + SplitFrom(s, 10, LowerUpper);
    assert SplitFrom(s, 10, LowerUpper) == "e" + SplitFrom(s, 11, LowerUpper);
    assert SplitFrom(s, 11, LowerUpper) == "k" + SplitFrom(s, 12, LowerUpper);
    assert SplitFrom(s, 12, LowerUpper) == "s" + SplitFrom(s, 13, LowerUpper);
  }

  lemma {:induction false} GeeksLowerUpper(s: string)
    requires GeeksText2(s)
    ensures GeeksText3(SplitPass(s, LowerUpper))
  {
    GeeksLowerUpperPart0(s);
    GeeksLowerUpperPart1(s);
    assert SplitFrom(s, 13, LowerUpper) == [];
  }

  lemma {:induction false} GeeksSpacesPart0(s: string)
    requires GeeksText3(s)
    ensures SqueezeFrom(s, 0, ' ', 2) == "Gee" + SqueezeFrom(s, 3, ' ', 2)
  {
    assert SqueezeFrom(s, 0, ' ', 2) == "G" + SqueezeFrom(s, 1, ' ', 2);
    assert SqueezeFrom(s, 1, ' ', 2) == "e" + SqueezeFrom(s, 2, ' ', 2);
    assert SqueezeFrom(s, 2, ' ', 2) == "e" + SqueezeFrom(s, 3, ' ', 2);
  }

  lemma {:induction false} GeeksSpacesPart1(s: string)
    requires GeeksText3(s)
    ensures SqueezeFrom(s, 3, ' ', 2) == "ksf" + SqueezeFrom(s, 6, ' ', 2)
  {
    assert SqueezeFrom(s, 3, ' ', 2) == "k" + SqueezeFrom(s, 4, ' ', 2);
    assert SqueezeFrom(s, 4, ' ', 2) == "s" + SqueezeFrom(s, 5, ' ', 2);
    assert SqueezeFrom(s, 5, ' ', 2) == "f" + SqueezeFrom(s, 6, ' ', 2);
  }

  lemma {:induction false} GeeksSpacesPart2(s: string)
    requires GeeksText3(s)
    ensures SqueezeFrom(s, 6, ' ', 2) == "or " + SqueezeFrom(s, 9, ' ', 2)
  {
    assert SqueezeFrom(s, 6, ' ', 2) == "o" + SqueezeFrom(s, 7, ' ', 2);
    assert SqueezeFrom(s, 7, ' ', 2) == "r" + SqueezeFrom(s, 8, ' ', 2);
    assert SqueezeFrom(s, 8, ' ', 2) == " " + SqueezeFrom(s, 9, ' ', 2);
  }

  lemma {:induction false} GeeksSpacesPart3(s: string)
    requires GeeksText3(s)
    ensures SqueezeFrom(s, 9, ' ', 2) == "Gee" + SqueezeFrom(s, 12, ' ', 2)
  {
    assert SqueezeFrom(s, 9, ' ', 2) == "G" + SqueezeFrom(s, 10, ' ', 2);
    assert SqueezeFrom(s, 10, ' ', 2) == "e" + SqueezeFrom(s, 11, ' ', 2);
    assert SqueezeFrom(s, 11, ' ', 2) == "e" + SqueezeFrom(s, 12, ' ', 2);
  }

  lemma {:induction false} GeeksSpacesPart4(s: string)
    requires GeeksText3(s)
    ensures SqueezeFrom(s, 12, ' ', 2) == "ks" + SqueezeFrom(s, 14, ' ', 2)
  {
    assert SqueezeFrom(s, 12, ' ', 2) == "k" + SqueezeFrom(s, 13, ' ', 2);
    assert SqueezeFrom(s, 13, ' ', 2) == "s" + SqueezeFrom(s, 14, ' ', 2);
  }

  lemma {:induction false} GeeksSpaces(s: string)
    requires GeeksText3(s)
    ensures GeeksText3(Squeeze(s, ' ', 2))
  {
    GeeksSpacesPart0(s);
    GeeksSpacesPart1(s);
    GeeksSpacesPart2(s);
    GeeksSpacesPart3(s);
    GeeksSpacesPart4(s);
    assert SqueezeFrom(s, 14, ' ', 2) == [];
  }

  lemma {:induction false} GeeksNewlinesPart0(s: string)
    requires GeeksText3(s)
    ensures SqueezeFrom(s, 0, '\n', 3) == "Gee" + SqueezeFrom(s, 3, '\n', 3)
  {
    assert SqueezeFrom(s, 0, '\n', 3) == "G" + SqueezeFrom(s, 1, '\n', 3);
    assert SqueezeFrom(s, 1, '\n', 3) == "e" + SqueezeFrom(s, 2, '\n', 3);
    assert SqueezeFrom(s, 2, '\n', 3) == "e" + SqueezeFrom(s, 3, '\n', 3);
  }

  lemma {:induction false} GeeksNewlinesPart1(s: string)
    requires GeeksText3(s)
    ensures SqueezeFrom(s, 3, '\n', 3) == "ksf" + SqueezeFrom(s, 6, '\n', 3)
  {
    assert SqueezeFrom(s, 3, '\n', 3) == "k" + SqueezeFrom(s, 4, '\n', 3);
    assert SqueezeFrom(s, 4, '\n', 3) == "s" + SqueezeFrom(s, 5, '\n', 3);
    assert SqueezeFrom(s, 5, '\n', 3) == "f" + SqueezeFrom(s, 6, '\n', 3);
  }

  lemma {:induction false} GeeksNewlinesPart2(s: string)
    requires GeeksText3(s)
    ensures SqueezeFrom(s, 6, '\n', 3) == "or " + SqueezeFrom(s, 9, '\n', 3)
  {
    assert SqueezeFrom(s, 6, '\n', 3) == "o" + SqueezeFrom(s, 7, '\n', 3);
    assert SqueezeFrom(s, 7, '\n', 3) == "r" + SqueezeFrom(s, 8, '\n', 3);
    assert SqueezeFrom(s, 8, '\n', 3) == " " + SqueezeFrom(s, 9, '\n', 3);
  }

  lemma {:induction false} GeeksNewlinesPart3(s: string)
    requires GeeksText3(s)
    ensures SqueezeFrom(s, 9, '\n', 3) == "Gee" + SqueezeFrom(s, 12, '\n', 3)
  {
    assert SqueezeFrom(s, 9, '\n', 3) == "G" + SqueezeFrom(s, 10, '\n', 3);
    assert SqueezeFrom(s, 10, '\n', 3) == "e" + SqueezeFrom(s, 11, '\n', 3);
    assert SqueezeFrom(s, 11, '\n', 3) == "e" + SqueezeFrom(s, 12, '\n', 3);
  }

  lemma {:induction false} GeeksNewlinesPart4(s: string)
    requires GeeksText3(s)
    ensures SqueezeFrom(s, 12, '\n', 3) == "ks" + SqueezeFrom(s, 14, '\n', 3)
  {
    assert SqueezeFrom(s, 12, '\n', 3) == "k" + SqueezeFrom(s, 13, '\n', 3);
    assert SqueezeFrom(s, 13, '\n', 3) == "s" + SqueezeFrom(s, 14, '\n', 3);
  }

  lemma {:induction false} GeeksNewlines(s: string)
    requires GeeksText3(s)
    ensures GeeksText3(Squeeze(s, '\n', 3))
  {
    GeeksNewlinesPart0(s);
    GeeksNewlinesPart1(s);
    GeeksNewlinesPart2(s);
    GeeksNewlinesPart3(s);
    GeeksNewlinesPart4(s);
    assert SqueezeFrom(s, 14, '\n', 3) == [];
  }

  lemma {:induction false} GeeksStrip(s: string)
    requires GeeksText3(s)
    ensures GeeksText3(Strip(s))
  {
    assert LeadingSpace(s) == 0;
    assert TrailingSpace(s) == 0;
    assert s[0..][..|s|] == s;
  }

  /** Line 208: not the expected "GeeksforGeeks"; the lower-to-upper rule splits "rG". */
  lemma CleanGeeks(text: string)
    requires GeeksText0(text)
    ensures GeeksText3(Cleaned(text))
  {
    GeeksCollapsed(text);
    var t0 := CollapseTimes(text, CollapseRounds);
    GeeksDotUpper(t0);
    var t1 := SplitPass(t0, DotUpper);
    GeeksCommaLetter(t1);
    var t2 := SplitPass(t1, CommaLetter);
    GeeksLetterParen(t2);
    var t3 := SplitPass(t2, LetterParen);
    GeeksParenLetter(t3);
    var t4 := SplitPass(t3, ParenLetter);
    GeeksLowerUpper(t4);
    var t5 := SplitPass(t4, LowerUpper);
    GeeksSpaces(t5);
    var t6 := Squeeze(t5, ' ', 2);
    GeeksNewlines(t6);
    var t7 := Squeeze(t6, '\n', 3);
    GeeksStrip(t7);
    assert Cleaned(text) == Strip(t7);
  }

  /** `s` is "P y t h o n  p r o g r a m m i n g", character by character. */
  predicate PythonText0(s: string) {
    |s| == 34 && s[0] == 'P' && s[1] == ' ' && s[2] == 'y' && s[3] == ' ' && s[4] == 't'
    && s[5] == ' ' && s[6] == 'h' && s[7] == ' ' && s[8] == 'o' && s[9] == ' ' && s[10] == 'n'
    && s[11] == ' ' && s[12] == ' ' && s[13] == 'p' && s[14] == ' ' && s[15] == 'r' && s[16] == ' '
    && s[17] == 'o' && s[18] == ' ' && s[19] == 'g' && s[20] == ' ' && s[21] == 'r' && s[22] == ' '
    && s[23] == 'a' && s[24] == ' ' && s[25] == 'm' && s[26] == ' ' && s[27] == 'm' && s[28] == ' '
    && s[29] == 'i' && s[30] == ' ' && s[31] == 'n' && s[32] == ' ' && s[33] == 'g'
  }

  /** `s` is "Py th on  pr og ra mm in g", character by character. */
  predicate PythonText1(s: string) {
    |s| == 26 && s[0] == 'P' && s[1] == 'y' && s[2] == ' ' && s[3] == 't' && s[4] == 'h'
    && s[5] == ' ' && s[6] == 'o' && s[7] == 'n' && s[8] == ' ' && s[9] == ' ' && s[10] == 'p'
    && s[11] == 'r' && s[12] == ' ' && s[13] == 'o' && s[14] == 'g' && s[15] == ' ' && s[16] == 'r'
    && s[17] == 'a' && s[18] == ' ' && s[19] == 'm' && s[20] == 'm' && s[21] == ' ' && s[22] == 'i'
    && s[23] == 'n' && s[24] == ' ' && s[25] == 'g'
  }

  lemma {:induction false} PythonCollapse0Part0(s: string)
    requires PythonText0(s)
    ensures CollapseFrom(s, 0) == "Py th on  pr" + CollapseFrom(s, 16)
  {
    assert CollapseFrom(s, 0) == "Py" + CollapseFrom(s, 3);
    assert CollapseFrom(s, 3) == " " + CollapseFrom(s, 4);
    assert CollapseFrom(s, 4) == "th" + CollapseFrom(s, 7);
    assert CollapseFrom(s, 7) == " " + CollapseFrom(s, 8);
    assert CollapseFrom(s, 8) == "on" + CollapseFrom(s, 11);
    assert CollapseFrom(s, 11) == " " + CollapseFrom(s, 12);
    assert CollapseFrom(s, 12) == " " + CollapseFrom(s, 13);
    assert CollapseFrom(s, 13) == "pr" + CollapseFrom(s, 16);
  }

  lemma {:induction false} PythonCollapse0Part1(s: string)
    requires PythonText0(s)
    ensures CollapseFrom(s, 16) == " og ra mm in" + CollapseFrom(s, 32)
  {
    assert CollapseFrom(s, 16) == " " + CollapseFrom(s, 17);
    assert CollapseFrom(s, 17) == "og" + CollapseFrom(s, 20);
    assert CollapseFrom(s, 20) == " " + CollapseFrom(s, 21);
    assert CollapseFrom(s, 21) == "ra" + CollapseFrom(s, 24);
    assert CollapseFrom(s, 24) == " " + CollapseFrom(s, 25);
    assert CollapseFrom(s, 25) == "mm" + CollapseFrom(s, 28);
    assert CollapseFrom(s, 28) == " " + CollapseFrom(s, 29);
    assert CollapseFrom(s, 29) == "in" + CollapseFrom(s, 32);
  }

  lemma {:induction false} PythonCollapse0Part2(s: string)
    requires PythonText0(s)
    ensures CollapseFrom(s, 32) == " g" + CollapseFrom(s, 34)
  {
    assert CollapseFrom(s, 32) == " " + CollapseFrom(s, 33);
    assert CollapseFrom(s, 33) == "g" + CollapseFrom(s, 34);
  }

  lemma {:induction false} PythonCollapse0(s: string)
    requires PythonText0(s)
    ensures PythonText1(CollapsePass(s))
  {
    PythonCollapse0Part0(s);
    PythonCollapse0Part1(s);
    PythonCollapse0Part2(s);
    assert CollapseFrom(s, 34) == [];
  }

  /** `s` is "Python  programming", character by character. */
  predicate PythonText2(s: string) {
    |s| == 19 && s[0] == 'P' && s[1] == 'y' && s[2] == 't' && s[3] == 'h' && s[4] == 'o'
    && s[5] == 'n' && s[6] == ' ' && s[7] == ' ' && s[8] == 'p' && s[9] == 'r' && s[10] == 'o'
    && s[11] == 'g' && s[12] == 'r' && s[13] == 'a' && s[14] == 'm' && s[15] == 'm' && s[16] == 'i'
    && s[17] == 'n' && s[18] == 'g'
  }

  lemma {:induction false} PythonCollapse1Part0(s: string)
    requires PythonText1(s)
    ensures CollapseFrom(s, 0) == "Python  pro" + CollapseFrom(s, 14)
  {
    assert CollapseFrom(s, 0) == "P" + CollapseFrom(s, 1);
    assert CollapseFrom(s, 1) == "yt" + CollapseFrom(s, 4);
    assert CollapseFrom(s, 4) == "ho" + CollapseFrom(s, 7);
    assert CollapseFrom(s, 7) == "n" + CollapseFrom(s, 8);
    assert CollapseFrom(s, 8) == " " + CollapseFrom(s, 9);
    assert CollapseFrom(s, 9) == " " + CollapseFrom(s, 10);
    assert CollapseFrom(s, 10) == "p" + CollapseFrom(s, 11);
    assert CollapseFrom(s, 11) == "ro" + CollapseFrom(s, 14);
  }

  lemma {:induction false} PythonCollapse1Part1(s: string)
    requires PythonText1(s)
    ensures CollapseFrom(s, 14) == "gramming" + CollapseFrom(s, 26)
  {
    assert CollapseFrom(s, 14) == "gr" + CollapseFrom(s, 17);
    assert CollapseFrom(s, 17) == "am" + CollapseFrom(s, 20);
    assert CollapseFrom(s, 20) == "mi" + CollapseFrom(s, 23);
    assert CollapseFrom(s, 23) == "ng" + CollapseFrom(s, 26);
  }

  lemma {:induction false} PythonCollapse1(s: string)
    requires PythonText1(s)
    ensures PythonText2(CollapsePass(s))
  {
    PythonCollapse1Part0(s);
    PythonCollapse1Part1(s);
    assert CollapseFrom(s, 26) == [];
  }

  lemma {:induction false} PythonCollapse2Part0(s: string)
    requires PythonText2(s)
    ensures CollapseFrom(s, 0) == "Python  " + CollapseFrom(s, 8)
  {
    assert CollapseFrom(s, 0) == "P" + CollapseFrom(s, 1);
    assert CollapseFrom(s, 1) == "y" + CollapseFrom(s, 2);
    assert CollapseFrom(s, 2) == "t" + CollapseFrom(s, 3);
    assert CollapseFrom(s, 3) == "h" + CollapseFrom(s, 4);
    assert CollapseFrom(s, 4) == "o" + CollapseFrom(s, 5);
    assert CollapseFrom(s, 5) == "n" + CollapseFrom(s, 6);
    assert CollapseFrom(s, 6) == " " + CollapseFrom(s, 7);
    assert CollapseFrom(s, 7) == " " + CollapseFrom(s, 8);
  }

  lemma {:induction false} PythonCollapse2Part1(s: string)
    requires PythonText2(s)
    ensures CollapseFrom(s, 8) == "programm" + CollapseFrom(s, 16)
  {
    assert CollapseFrom(s, 8) == "p" + CollapseFrom(s, 9);
    assert CollapseFrom(s, 9) == "r" + CollapseFrom(s, 10);
    assert CollapseFrom(s, 10) == "o" + CollapseFrom(s, 11);
    assert CollapseFrom(s, 11) == "g" + CollapseFrom(s, 12);
    assert CollapseFrom(s, 12) == "r" + CollapseFrom(s, 13);
    assert CollapseFrom(s, 13) == "a" + CollapseFrom(s, 14);
    assert CollapseFrom(s, 14) == "m" + CollapseFrom(s, 15);
    assert CollapseFrom(s, 15) == "m" + CollapseFrom(s, 16);
  }

  lemma {:induction false} PythonCollapse2Part2(s: string)
    requires PythonText2(s)
    ensures CollapseFrom(s, 16) == "ing" + CollapseFrom(s, 19)
  {
    assert CollapseFrom(s, 16) == "i" + CollapseFrom(s, 17);
    assert CollapseFrom(s, 17) == "n" + CollapseFrom(s, 18);
    assert CollapseFrom(s, 18) == "g" + CollapseFrom(s, 19);
  }

  lemma {:induction false} PythonCollapse2(s: string)
    requires PythonText2(s)
    ensures PythonText2(CollapsePass(s))
  {
    PythonCollapse2Part0(s);
    PythonCollapse2Part1(s);
    PythonCollapse2Part2(s);
    assert CollapseFrom(s, 19) == [];
  }

  lemma PythonCollapsed(text: string)
    requires PythonText0(text)
    ensures PythonText2(CollapseTimes(text, CollapseRounds))
  {
    PythonCollapse0(text);
    var c1 := CollapsePass(text);
    assert CollapseTimes(text, 1) == c1;
    PythonCollapse1(c1);
    var c2 := CollapsePass(c1);
    assert CollapseTimes(text, 2) == c2;
    PythonCollapse2(c2);
    var c3 := CollapsePass(c2);
    assert CollapseTimes(text, 3) == c3;
    CollapseTimesSettles(text, 2, CollapseRounds);
  }

  lemma {:induction false} PythonDotUpperPart0(s: string)
    requires PythonText2(s)
    ensures SplitFrom(s, 0, DotUpper) == "Python  " + SplitFrom(s, 8, DotUpper)
  {
    assert SplitFrom(s, 0, DotUpper) == "P" + SplitFrom(s, 1, DotUpper);
    assert SplitFrom(s, 1, DotUpper) == "y" + SplitFrom(s, 2, DotUpper);
    assert SplitFrom(s, 2, DotUpper) == "t" + SplitFrom(s, 3, DotUpper);
    assert SplitFrom(s, 3, DotUpper) == "h" + SplitFrom(s, 4, DotUpper);
    assert SplitFrom(s, 4, DotUpper) == "o" + SplitFrom(s, 5, DotUpper);
    assert SplitFrom(s, 5, DotUpper) == "n" + SplitFrom(s, 6, DotUpper);
    assert SplitFrom(s, 6, DotUpper) == " " + SplitFrom(s, 7, DotUpper);
    assert SplitFrom(s, 7, DotUpper) == " " + SplitFrom(s, 8, DotUpper);
  }

  lemma {:induction false} PythonDotUpperPart1(s: string)
    requires PythonText2(s)
    ensures SplitFrom(s, 8, DotUpper) == "programm" + SplitFrom(s, 16, DotUpper)
  {
    assert SplitFrom(s, 8, DotUpper) == "p" + SplitFrom(s, 9, DotUpper);
    assert SplitFrom(s, 9, DotUpper) == "r" + SplitFrom(s, 10, DotUpper);
    assert SplitFrom(s, 10, DotUpper) == "o" + SplitFrom(s, 11, DotUpper);
    assert SplitFrom(s, 11, DotUpper) == "g" + SplitFrom(s, 12, DotUpper);
    assert SplitFrom(s, 12, DotUpper) == "r" + SplitFrom(s, 13, DotUpper);
    assert SplitFrom(s, 13, DotUpper) == "a" + SplitFrom(s, 14, DotUpper);
    assert SplitFrom(s, 14, DotUpper) == "m" + SplitFrom(s, 15, DotUpper);
    assert SplitFrom(s, 15, DotUpper) == "m" + SplitFrom(s, 16, DotUpper);
  }

  lemma {:induction false} PythonDotUpperPart2(s: string)
    requires PythonText2(s)
    ensures SplitFrom(s, 16, DotUpper) == "ing" + SplitFrom(s, 19, DotUpper)
  {
    assert SplitFrom(s, 16, DotUpper) == "i" + SplitFrom(s, 17, DotUpper);
    assert SplitFrom(s, 17, DotUpper) == "n" + SplitFrom(s, 18, DotUpper);
    assert SplitFrom(s, 18, DotUpper) == "g" + SplitFrom(s, 19, DotUpper);
  }

  lemma {:induction false} PythonDotUpper(s: string)
    requires PythonText2(s)
    ensures PythonText2(SplitPass(s, DotUpper))
  {
    PythonDotUpperPart0(s);
    PythonDotUpperPart1(s);
    PythonDotUpperPart2(s);
    assert SplitFrom(s, 19, DotUpper) == [];
  }

  lemma {:induction false} PythonCommaLetterPart0(s: string)
    requires PythonText2(s)
    ensures SplitFrom(s, 0, CommaLetter) == "Python  " + SplitFrom(s, 8, CommaLetter)
  {
    assert SplitFrom(s, 0, CommaLetter) == "P" + SplitFrom(s, 1, CommaLetter);
    assert SplitFrom(s, 1, CommaLetter) == "y" + SplitFrom(s, 2, CommaLetter);
    assert SplitFrom(s, 2, CommaLetter) == "t" + SplitFrom(s, 3, CommaLetter);
    assert SplitFrom(s, 3, CommaLetter) == "h" + SplitFrom(s, 4, CommaLetter);
    assert SplitFrom(s, 4, CommaLetter) == "o" + SplitFrom(s, 5, CommaLetter);
    assert SplitFrom(s, 5, CommaLetter) == "n" + SplitFrom(s, 6, CommaLetter);
    assert SplitFrom(s, 6, CommaLetter) == " " + SplitFrom(s, 7, CommaLetter);
    assert SplitFrom(s, 7, CommaLetter) == " " + SplitFrom(s, 8, CommaLetter);
  }

  lemma {:induction false} PythonCommaLetterPart1(s: string)
    requires PythonText2(s)
    ensures SplitFrom(s, 8, CommaLetter) == "programm" + SplitFrom(s, 16, CommaLetter)
  {
    assert SplitFrom(s, 8, CommaLetter) == "p" + SplitFrom(s, 9, CommaLetter);
    assert SplitFrom(s, 9, CommaLetter) == "r" + SplitFrom(s, 10, CommaLetter);
    assert SplitFrom(s, 10, CommaLetter) == "o" + SplitFrom(s, 11, CommaLetter);
    assert SplitFrom(s, 11, CommaLetter) == "g" + SplitFrom(s, 12, CommaLetter);
    assert SplitFrom(s, 12, CommaLetter) == "r" + SplitFrom(s, 13, CommaLetter);
    assert SplitFrom(s, 13, CommaLetter) == "a" + SplitFrom(s, 14, CommaLetter);
    assert SplitFrom(s, 14, CommaLetter) == "m" + SplitFrom(s, 15, CommaLetter);
    assert SplitFrom(s, 15, CommaLetter) == "m" + SplitFrom(s, 16, CommaLetter);
  }

  lemma {:induction false} PythonCommaLetterPart2(s: string)
    requires PythonText2(s)
    ensures SplitFrom(s, 16, CommaLetter) == "ing" + SplitFrom(s, 19, CommaLetter)
  {
    assert SplitFrom(s, 16, CommaLetter) == "i" + SplitFrom(s, 17, CommaLetter);
    assert SplitFrom(s, 17, CommaLetter) == "n" + SplitFrom(s, 18, CommaLetter);
    assert SplitFrom(s, 18, CommaLetter) == "g" + SplitFrom(s, 19, CommaLetter);
  }

  lemma {:induction false} PythonCommaLetter(s: string)
    requires PythonText2(s)
    ensures PythonText2(SplitPass(s, CommaLetter))
  {
    PythonCommaLetterPart0(s);
    PythonCommaLetterPart1(s);
    PythonCommaLetterPart2(s);
    assert SplitFrom(s, 19, CommaLetter) == [];
  }

  lemma {:induction false} PythonLetterParenPart0(s: string)
    requires PythonText2(s)
    ensures SplitFrom(s, 0, LetterParen) == "Python  " + SplitFrom(s, 8, LetterParen)
  {
    assert SplitFrom(s, 0, LetterParen) == "P" + SplitFrom(s, 1, LetterParen);
    assert SplitFrom(s, 1, LetterParen) == "y" + SplitFrom(s, 2, LetterParen);
    assert SplitFrom(s, 2, LetterParen) == "t" + SplitFrom(s, 3, LetterParen);
    assert SplitFrom(s, 3, LetterParen) == "h" + SplitFrom(s, 4, LetterParen);
    assert SplitFrom(s, 4, LetterParen) == "o" + SplitFrom(s, 5, LetterParen);
    assert SplitFrom(s, 5, LetterParen) == "n" + SplitFrom(s, 6, LetterParen);
    assert SplitFrom(s, 6, LetterParen) == " " + SplitFrom(s, 7, LetterParen);
    assert SplitFrom(s, 7, LetterParen) == " " + SplitFrom(s, 8, LetterParen);
  }

  lemma {:induction false} PythonLetterParenPart1(s: string)
    requires PythonText2(s)
    ensures SplitFrom(s, 8, LetterParen) == "programm" + SplitFrom(s, 16, LetterParen)
  {
    assert SplitFrom(s, 8, LetterParen) == "p" + SplitFrom(s, 9, LetterParen);
    assert SplitFrom(s, 9, LetterParen) == "r" + SplitFrom(s, 10, LetterParen);
    assert SplitFrom(s, 10, LetterParen) == "o" + SplitFrom(s, 11, LetterParen);
    assert SplitFrom(s, 11, LetterParen) == "g" + SplitFrom(s, 12, LetterParen);
    assert SplitFrom(s, 12, LetterParen) == "r" + SplitFrom(s, 13, LetterParen);
    assert SplitFrom(s, 13, LetterParen) == "a" + SplitFrom(s, 14, LetterParen);
    assert SplitFrom(s, 14, LetterParen) == "m" + SplitFrom(s, 15, LetterParen);
    assert SplitFrom(s, 15, LetterParen) == "m" + SplitFrom(s, 16, LetterParen);
  }

  lemma {:induction false} PythonLetterParenPart2(s: string)
    requires PythonText2(s)
    ensures SplitFrom(s, 16, LetterParen) == "ing" + SplitFrom(s, 19, LetterParen)
  {
    assert SplitFrom(s, 16, LetterParen) == "i" + SplitFrom(s, 17, LetterParen);
    assert SplitFrom(s, 17, LetterParen) == "n" + SplitFrom(s, 18, LetterParen);
    assert SplitFrom(s, 18, LetterParen) == "g" + SplitFrom(s, 19, LetterParen);
  }

  lemma {:induction false} PythonLetterParen(s: string)
    requires PythonText2(s)
    ensures PythonText2(SplitPass(s, LetterParen))
  {
    PythonLetterParenPart0(s);
    PythonLetterParenPart1(s);
    PythonLetterParenPart2(s);
    assert SplitFrom(s, 19, LetterParen) == [];
  }

  lemma {:induction false} PythonParenLetterPart0(s: string)
    requires PythonText2(s)
    ensures SplitFrom(s, 0, ParenLetter) == "Python  " + SplitFrom(s, 8, ParenLetter)
  {
    assert SplitFrom(s, 0, ParenLetter) == "P" + SplitFrom(s, 1, ParenLetter);
    assert SplitFrom(s, 1, ParenLetter) == "y" + SplitFrom(s, 2, ParenLetter);
    assert SplitFrom(s, 2, ParenLetter) == "t" + SplitFrom(s, 3, ParenLetter);
    assert SplitFrom(s, 3, ParenLetter) == "h" + SplitFrom(s, 4, ParenLetter);
    assert SplitFrom(s, 4, ParenLetter) == "o" + SplitFrom(s, 5, ParenLetter);
    assert SplitFrom(s, 5, ParenLetter) == "n" + SplitFrom(s, 6, ParenLetter);
    assert SplitFrom(s, 6, ParenLetter) == " " + SplitFrom(s, 7, ParenLetter);
    assert SplitFrom(s, 7, ParenLetter) == " " + SplitFrom(s, 8, ParenLetter);
  }

  lemma {:induction false} PythonParenLetterPart1(s: string)
    requires PythonText2(s)
    ensures SplitFrom(s, 8, ParenLetter) == "programm" + SplitFrom(s, 16, ParenLetter)
  {
    assert SplitFrom(s, 8, ParenLetter) == "p" + SplitFrom(s, 9, ParenLetter);
    assert SplitFrom(s, 9, ParenLetter) == "r" + SplitFrom(s, 10, ParenLetter);
    assert SplitFrom(s, 10, ParenLetter) == "o" + SplitFrom(s, 11, ParenLetter);
    assert SplitFrom(s, 11, ParenLetter) == "g" + SplitFrom(s, 12, ParenLetter);
    assert SplitFrom(s, 12, ParenLetter) == "r" + SplitFrom(s, 13, ParenLetter);
    assert SplitFrom(s, 13, ParenLetter) == "a" + SplitFrom(s, 14, ParenLetter);
    assert SplitFrom(s, 14, ParenLetter) == "m" + SplitFrom(s, 15, ParenLetter);
    assert SplitFrom(s, 15, ParenLetter) == "m" + SplitFrom(s, 16, ParenLetter);
  }

  lemma {:induction false} PythonParenLetterPart2(s: string)
    requires PythonText2(s)
    ensures SplitFrom(s, 16, ParenLetter) == "ing" + SplitFrom(s, 19, ParenLetter)
  {
    assert SplitFrom(s, 16, ParenLetter) == "i" + SplitFrom(s, 17, ParenLetter);
    assert SplitFrom(s, 17, ParenLetter) == "n" + SplitFrom(s, 18, ParenLetter);
    assert SplitFrom(s, 18, ParenLetter) == "g" + SplitFrom(s, 19, ParenLetter);
  }

  lemma {:induction false} PythonParenLetter(s: string)
    requires PythonText2(s)
    ensures PythonText2(SplitPass(s, ParenLetter))
  {
    PythonParenLetterPart0(s);
    PythonParenLetterPart1(s);
    PythonParenLetterPart2(s);
    assert SplitFrom(s, 19, ParenLetter) == [];
  }

  lemma {:induction false} PythonLowerUpperPart0(s: string)
    requires PythonText2(s)
    ensures SplitFrom(s, 0, LowerUpper) == "Python  " + SplitFrom(s, 8, LowerUpper)
  {
    assert SplitFrom(s, 0, LowerUpper) == "P" + SplitFrom(s, 1, LowerUpper);
    assert SplitFrom(s, 1, LowerUpper) == "y" + SplitFrom(s, 2, LowerUpper);
    assert SplitFrom(s, 2, LowerUpper) == "t" + SplitFrom(s, 3, LowerUpper);
    assert SplitFrom(s, 3, LowerUpper) == "h" + SplitFrom(s, 4, LowerUpper);
    assert SplitFrom(s, 4, LowerUpper) == "o" + SplitFrom(s, 5, LowerUpper);
    assert SplitFrom(s, 5, LowerUpper) == "n" + SplitFrom(s, 6, LowerUpper);
    assert SplitFrom(s, 6, LowerUpper) == " " + SplitFrom(s, 7, LowerUpper);
    assert SplitFrom(s, 7, LowerUpper) == " " + SplitFrom(s, 8, LowerUpper);
  }

  lemma {:induction false} PythonLowerUpperPart1(s: string)
    requires PythonText2(s)
    ensures SplitFrom(s, 8, LowerUpper) == "programm" + SplitFrom(s, 16, LowerUpper)
  {
    assert SplitFrom(s, 8, LowerUpper) == "p" + SplitFrom(s, 9, LowerUpper);
    assert SplitFrom(s, 9, LowerUpper) == "r" + SplitFrom(s, 10, LowerUpper);
    assert SplitFrom(s, 10, LowerUpper) == "o" + SplitFrom(s, 11, LowerUpper);
    assert SplitFrom(s, 11, LowerUpper) == "g" + SplitFrom(s, 12, LowerUpper);
    assert SplitFrom(s, 12, LowerUpper) == "r" + SplitFrom(s, 13, LowerUpper);
    assert SplitFrom(s, 13, LowerUpper) == "a" + SplitFrom(s, 14, LowerUpper);
    assert SplitFrom(s, 14, LowerUpper) == "m" + SplitFrom(s, 15, LowerUpper);
    assert SplitFrom(s, 15, LowerUpper) == "m" + SplitFrom(s, 16, LowerUpper);
  }

  lemma {:induction false} PythonLowerUpperPart2(s: string)
    requires PythonText2(s)
    ensures SplitFrom(s, 16, LowerUpper) == "ing" + SplitFrom(s, 19, LowerUpper)
  {
    assert SplitFrom(s, 16, LowerUpper) == "i" + SplitFrom(s, 17, LowerUpper);
    assert SplitFrom(s, 17, LowerUpper) == "n" + SplitFrom(s, 18, LowerUpper);
    assert SplitFrom(s, 18, LowerUpper) == "g" + SplitFrom(s, 19, LowerUpper);
  }

  lemma {:induction false} PythonLowerUpper(s: string)
    requires PythonText2(s)
    ensures PythonText2(SplitPass(s, LowerUpper))
  {
    PythonLowerUpperPart0(s);
    PythonLowerUpperPart1(s);
    PythonLowerUpperPart2(s);
    assert SplitFrom(s, 19, LowerUpper) == [];
  }

  /** `s` is "Python programming", character by character. */
  predicate PythonText3(s: string) {
    |s| == 18 && s[0] == 'P' && s[1] == 'y' && s[2] == 't' && s[3] == 'h' && s[4] == 'o'
    && s[5] == 'n' && s[6] == ' ' && s[7] == 'p' && s[8] == 'r' && s[9] == 'o' && s[10] == 'g'
    && s[11] == 'r' && s[12] == 'a' && s[13] == 'm' && s[14] == 'm' && s[15] == 'i' && s[16] == 'n'
    && s[17] == 'g'
  }

  lemma {:induction false} PythonSpacesPart0(s: string)
    requires PythonText2(s)
    ensures SqueezeFrom(s, 0, ' ', 2) == "Pyt" + SqueezeFrom(s, 3, ' ', 2)
  {
    assert SqueezeFrom(s, 0, ' ', 2) == "P" + SqueezeFrom(s, 1, ' ', 2);
    assert SqueezeFrom(s, 1, ' ', 2) == "y" + SqueezeFrom(s, 2, ' ', 2);
    assert SqueezeFrom(s, 2, ' ', 2) == "t" + SqueezeFrom(s, 3, ' ', 2);
  }

  lemma {:induction false} PythonSpacesPart1(s: string)
    requires PythonText2(s)
    ensures SqueezeFrom(s, 3, ' ', 2) == "hon" + SqueezeFrom(s, 6, ' ', 2)
  {
    assert SqueezeFrom(s, 3, ' ', 2) == "h" + SqueezeFrom(s, 4, ' ', 2);
    assert SqueezeFrom(s, 4, ' ', 2) == "o" + SqueezeFrom(s, 5, ' ', 2);
    assert SqueezeFrom(s, 5, ' ', 2) == "n" + SqueezeFrom(s, 6, ' ', 2);
  }

  lemma {:induction false} PythonSpacesPart2(s: string)
    requires PythonText2(s)
    ensures SqueezeFrom(s, 6, ' ', 2) == " pr" + SqueezeFrom(s, 10, ' ', 2)
  {
    assert SqueezeFrom(s, 6, ' ', 2) == " " + SqueezeFrom(s, 8, ' ', 2);
    assert SqueezeFrom(s, 8, ' ', 2) == "p" + SqueezeFrom(s, 9, ' ', 2);
    assert SqueezeFrom(s, 9, ' ', 2) == "r" + SqueezeFrom(s, 10, ' ', 2);
  }

  lemma {:induction false} PythonSpacesPart3(s: string)
    requires PythonText2(s)
    ensures SqueezeFrom(s, 10, ' ', 2) == "ogr" + SqueezeFrom(s, 13, ' ', 2)
  {
    assert SqueezeFrom(s, 10, ' ', 2) == "o" + SqueezeFrom(s, 11, ' ', 2);
    assert SqueezeFrom(s, 11, ' ', 2) == "g" + SqueezeFrom(s, 12, ' ', 2);
    assert SqueezeFrom(s, 12, ' ', 2) == "r" + SqueezeFrom(s, 13, ' ', 2);
  }

  lemma {:induction false} PythonSpacesPart4(s: string)
    requires PythonText2(s)
    ensures SqueezeFrom(s, 13, ' ', 2) == "amm" + SqueezeFrom(s, 16, ' ', 2)
  {
    assert SqueezeFrom(s, 13, ' ', 2) == "a" + SqueezeFrom(s, 14, ' ', 2);
    assert SqueezeFrom(s, 14, ' ', 2) == "m" + SqueezeFrom(s, 15, ' ', 2);
    assert SqueezeFrom(s, 15, ' ', 2) == "m" + SqueezeFrom(s, 16, ' ', 2);
  }

  lemma {:induction false} PythonSpacesPart5(s: string)
    requires PythonText2(s)
    ensures SqueezeFrom(s, 16, ' ', 2) == "ing" + SqueezeFrom(s, 19, ' ', 2)
  {
    assert SqueezeFrom(s, 16, ' ', 2) == "i" + SqueezeFrom(s, 17, ' ', 2);
    assert SqueezeFrom(s, 17, ' ', 2) == "n" + SqueezeFrom(s, 18, ' ', 2);
    assert SqueezeFrom(s, 18, ' ', 2) == "g" + SqueezeFrom(s, 19, ' ', 2);
  }

  lemma {:induction false} PythonSpaces(s: string)
    requires PythonText2(s)
    ensures PythonText3(Squeeze(s, ' ', 2))
  {
    PythonSpacesPart0(s);
    PythonSpacesPart1(s);
    PythonSpacesPart2(s);
    PythonSpacesPart3(s);
    PythonSpacesPart4(s);
    PythonSpacesPart5(s);
    assert SqueezeFrom(s, 19, ' ', 2) == [];
  }

  lemma {:induction false} PythonNewlinesPart0(s: string)
    requires PythonText3(s)
    ensures SqueezeFrom(s, 0, '\n', 3) == "Pyt" + SqueezeFrom(s, 3, '\n', 3)
  {
    assert SqueezeFrom(s, 0, '\n', 3) == "P" + SqueezeFrom(s, 1, '\n', 3);
    assert SqueezeFrom(s, 1, '\n', 3) == "y" + SqueezeFrom(s, 2, '\n', 3);
    assert SqueezeFrom(s, 2, '\n', 3) == "t" + SqueezeFrom(s, 3, '\n', 3);
  }

  lemma {:induction false} PythonNewlinesPart1(s: string)
    requires PythonText3(s)
    ensures SqueezeFrom(s, 3, '\n', 3) == "hon" + SqueezeFrom(s, 6, '\n', 3)
  {
    assert SqueezeFrom(s, 3, '\n', 3) == "h" + SqueezeFrom(s, 4, '\n', 3);
    assert SqueezeFrom(s, 4, '\n', 3) == "o" + SqueezeFrom(s, 5, '\n', 3);
    assert SqueezeFrom(s, 5, '\n', 3) == "n" + SqueezeFrom(s, 6, '\n', 3);
  }

  lemma {:induction false} PythonNewlinesPart2(s: string)
    requires PythonText3(s)
    ensures SqueezeFrom(s, 6, '\n', 3) == " pr" + SqueezeFrom(s, 9, '\n', 3)
  {
    assert SqueezeFrom(s, 6, '\n', 3) == " " + SqueezeFrom(s, 7, '\n', 3);
    assert SqueezeFrom(s, 7, '\n', 3) == "p" + SqueezeFrom(s, 8, '\n', 3);
    assert SqueezeFrom(s, 8, '\n', 3) == "r" + SqueezeFrom(s, 9, '\n', 3);
  }

  lemma {:induction false} PythonNewlinesPart3(s: string)
    requires PythonText3(s)
    ensures SqueezeFrom(s, 9, '\n', 3) == "ogr" + SqueezeFrom(s, 12, '\n', 3)
  {
    assert SqueezeFrom(s, 9, '\n', 3) == "o" + SqueezeFrom(s, 10, '\n', 3);
    assert SqueezeFrom(s, 10, '\n', 3) == "g" + SqueezeFrom(s, 11, '\n', 3);
    assert SqueezeFrom(s, 11, '\n', 3) == "r" + SqueezeFrom(s, 12, '\n', 3);
  }

  lemma {:induction false} PythonNewlinesPart4(s: string)
    requires PythonText3(s)
    ensures SqueezeFrom(s, 12, '\n', 3) == "amm" + SqueezeFrom(s, 15, '\n', 3)
  {
    assert SqueezeFrom(s, 12, '\n', 3) == "a" + SqueezeFrom(s, 13, '\n', 3);
    assert SqueezeFrom(s, 13, '\n', 3) == "m" + SqueezeFrom(s, 14, '\n', 3);
    assert SqueezeFrom(s, 14, '\n', 3) == "m" + SqueezeFrom(s, 15, '\n', 3);
  }

  lemma {:induction false} PythonNewlinesPart5(s: string)
    requires PythonText3(s)
    ensures SqueezeFrom(s, 15, '\n', 3) == "ing" + SqueezeFrom(s, 18, '\n', 3)
  {
    assert SqueezeFrom(s, 15, '\n', 3) == "i" + SqueezeFrom(s, 16, '\n', 3);
    assert SqueezeFrom(s, 16, '\n', 3) == "n" + SqueezeFrom(s, 17, '\n', 3);
    assert SqueezeFrom(s, 17, '\n', 3) == "g" + SqueezeFrom(s, 18, '\n', 3);
  }

  lemma {:induction false} PythonNewlines(s: string)
    requires PythonText3(s)
    ensures PythonText3(Squeeze(s, '\n', 3))
  {
    PythonNewlinesPart0(s);
    PythonNewlinesPart1(s);
    PythonNewlinesPart2(s);
    PythonNewlinesPart3(s);
    PythonNewlinesPart4(s);
    PythonNewlinesPart5(s);
    assert SqueezeFrom(s, 18, '\n', 3) == [];
  }

  lemma {:induction false} PythonStrip(s: string)
    requires PythonText3(s)
    ensures PythonText3(Strip(s))
  {
    assert LeadingSpace(s) == 0;
    assert TrailingSpace(s) == 0;
    assert s[0..][..|s|] == s;
  }

  /** Line 209: the expected result. */
  lemma CleanPython(text: string)
    requires PythonText0(text)
    ensures PythonText3(Cleaned(text))
  {
    PythonCollapsed(text);
    var t0 := CollapseTimes(text, CollapseRounds);
    PythonDotUpper(t0);
    var t1 := SplitPass(t0, DotUpper);
    PythonCommaLetter(t1);
    var t2 := SplitPass(t1, CommaLetter);
    PythonLetterParen(t2);
    var t3 := SplitPass(t2, LetterParen);
    PythonParenLetter(t3);
    var t4 := SplitPass(t3, ParenLetter);
    PythonLowerUpper(t4);
    var t5 := SplitPass(t4, LowerUpper);
    PythonSpaces(t5);
    var t6 := Squeeze(t5, ' ', 2);
    PythonNewlines(t6);
    var t7 := Squeeze(t6, '\n', 3);
    PythonStrip(t7);
    assert Cleaned(text) == Strip(t7);
  }

  /** `s` is "5 4 0  p r o b l e m s", character by character. */
  predicate ProblemsText0(s: string) {
    |s| == 22 && s[0] == '5' && s[1] == ' ' && s[2] == '4' && s[3] == ' ' && s[4] == '0'
    && s[5] == ' ' && s[6] == ' ' && s[7] == 'p' && s[8] == ' ' && s[9] == 'r' && s[10] == ' '
    && s[11] == 'o' && s[12] == ' ' && s[13] == 'b' && s[14] == ' ' && s[15] == 'l' && s[16] == ' '
    && s[17] == 'e' && s[18] == ' ' && s[19] == 'm' && s[20] == ' ' && s[21] == 's'
  }

  /** `s` is "54 0  pr ob le ms", character by character. */
  predicate ProblemsText1(s: string) {
    |s| == 17 && s[0] == '5' && s[1] == '4' && s[2] == ' ' && s[3] == '0' && s[4] == ' '
    && s[5] == ' ' && s[6] == 'p' && s[7] == 'r' && s[8] == ' ' && s[9] == 'o' && s[10] == 'b'
    && s[11] == ' ' && s[12] == 'l' && s[13] == 'e' && s[14] == ' ' && s[15] == 'm' && s[16] == 's'
  }

  lemma {:induction false} ProblemsCollapse0Part0(s: string)
    requires ProblemsText0(s)
    ensures CollapseFrom(s, 0) == "54 0  pr ob" + CollapseFrom(s, 14)
  {
    assert CollapseFrom(s, 0) == "54" + CollapseFrom(s, 3);
    assert CollapseFrom(s, 3) == " " + CollapseFrom(s, 4);
    assert CollapseFrom(s, 4) == "0" + CollapseFrom(s, 5);
    assert CollapseFrom(s, 5) == " " + CollapseFrom(s, 6);
    assert CollapseFrom(s, 6) == " " + CollapseFrom(s, 7);
    assert CollapseFrom(s, 7) == "pr" + CollapseFrom(s, 10);
    assert CollapseFrom(s, 10) == " " + CollapseFrom(s, 11);
    assert CollapseFrom(s, 11) == "ob" + CollapseFrom(s, 14);
  }

  lemma {:induction false} ProblemsCollapse0Part1(s: string)
    requires ProblemsText0(s)
    ensures CollapseFrom(s, 14) == " le ms" + CollapseFrom(s, 22)
  {
    assert CollapseFrom(s, 14) == " " + CollapseFrom(s, 15);
    assert CollapseFrom(s, 15) == "le" + CollapseFrom(s, 18);
    assert CollapseFrom(s, 18) == " " + CollapseFrom(s, 19);
    assert CollapseFrom(s, 19) == "ms" + CollapseFrom(s, 22);
  }

  lemma {:induction false} ProblemsCollapse0(s: string)
    requires ProblemsText0(s)
    ensures ProblemsText1(CollapsePass(s))
  {
    ProblemsCollapse0Part0(s);
    ProblemsCollapse0Part1(s);
    assert CollapseFrom(s, 22) == [];
  }

  /** `s` is "540  problems", character by character. */
  predicate ProblemsText2(s: string) {
    |s| == 13 && s[0] == '5' && s[1] == '4' && s[2] == '0' && s[3] == ' ' && s[4] == ' '
    && s[5] == 'p' && s[6] == 'r' && s[7] == 'o' && s[8] == 'b' && s[9] == 'l' && s[10] == 'e'
    && s[11] == 'm' && s[12] == 's'
  }

  lemma {:induction false} ProblemsCollapse1Part0(s: string)
    requires ProblemsText1(s)
    ensures CollapseFrom(s, 0) == "540  problem" + CollapseFrom(s, 16)
  {
    assert CollapseFrom(s, 0) == "5" + CollapseFrom(s, 1);
    assert CollapseFrom(s, 1) == "40" + CollapseFrom(s, 4);
    assert CollapseFrom(s, 4) == " " + CollapseFrom(s, 5);
    assert CollapseFrom(s, 5) == " " + CollapseFrom(s, 6);
    assert CollapseFrom(s, 6) == "p" + CollapseFrom(s, 7);
    assert CollapseFrom(s, 7) == "ro" + CollapseFrom(s, 10);
    assert CollapseFrom(s, 10) == "bl" + CollapseFrom(s, 13);
    assert CollapseFrom(s, 13) == "em" + CollapseFrom(s, 16);
  }

  lemma {:induction false} ProblemsCollapse1Part1(s: string)
    requires ProblemsText1(s)
    ensures CollapseFrom(s, 16) == "s" + CollapseFrom(s, 17)
  {
    assert CollapseFrom(s, 16) == "s" + CollapseFrom(s, 17);
  }

  lemma {:induction false} ProblemsCollapse1(s: string)
    requires ProblemsText1(s)
    ensures ProblemsText2(CollapsePass(s))
  {
    ProblemsCollapse1Part0(s);
    ProblemsCollapse1Part1(s);
    assert CollapseFrom(s, 17) == [];
  }

  lemma {:induction false} ProblemsCollapse2Part0(s: string)
    requires ProblemsText2(s)
    ensures CollapseFrom(s, 0) == "540  pro" + CollapseFrom(s, 8)
  {
    assert CollapseFrom(s, 0) == "5" + CollapseFrom(s, 1);
    assert CollapseFrom(s, 1) == "4" + CollapseFrom(s, 2);
    assert CollapseFrom(s, 2) == "0" + CollapseFrom(s, 3);
    assert CollapseFrom(s, 3) == " " + CollapseFrom(s, 4);
    assert CollapseFrom(s, 4) == " " + CollapseFrom(s, 5);
    assert CollapseFrom(s, 5) == "p" + CollapseFrom(s, 6);
    assert CollapseFrom(s, 6) == "r" + CollapseFrom(s, 7);
    assert CollapseFrom(s, 7) == "o" + CollapseFrom(s, 8);
  }

  lemma {:induction false} ProblemsCollapse2Part1(s: string)
    requires ProblemsText2(s)
    ensures CollapseFrom(s, 8) == "blems" + CollapseFrom(s, 13)
  {
    assert CollapseFrom(s, 8) == "b" + CollapseFrom(s, 9);
    assert CollapseFrom(s, 9) == "l" + CollapseFrom(s, 10);
    assert CollapseFrom(s, 10) == "e" + CollapseFrom(s, 11);
    assert CollapseFrom(s, 11) == "m" + CollapseFrom(s, 12);
    assert CollapseFrom(s, 12) == "s" + CollapseFrom(s, 13);
  }

  lemma {:induction false} ProblemsCollapse2(s: string)
    requires ProblemsText2(s)
    ensures ProblemsText2(CollapsePass(s))
  {
    ProblemsCollapse2Part0(s);
    ProblemsCollapse2Part1(s);
    assert CollapseFrom(s, 13) == [];
  }

  lemma ProblemsCollapsed(text: string)
    requires ProblemsText0(text)
    ensures ProblemsText2(CollapseTimes(text, CollapseRounds))
  {
    ProblemsCollapse0(text);
    var c1 := CollapsePass(text);
    assert CollapseTimes(text, 1) == c1;
    ProblemsCollapse1(c1);
    var c2 := CollapsePass(c1);
    assert CollapseTimes(text, 2) == c2;
    ProblemsCollapse2(c2);
    var c3 := CollapsePass(c2);
    assert CollapseTimes(text, 3) == c3;
    CollapseTimesSettles(text, 2, CollapseRounds);
  }

  lemma {:induction false} ProblemsDotUpperPart0(s: string)
    requires ProblemsText2(s)
    ensures SplitFrom(s, 0, DotUpper) == "540  pro" + SplitFrom(s, 8, DotUpper)
  {
    assert SplitFrom(s, 0, DotUpper) == "5" + SplitFrom(s, 1, DotUpper);
    assert SplitFrom(s, 1, DotUpper) == "4" + SplitFrom(s, 2, DotUpper);
    assert SplitFrom(s, 2, DotUpper) == "0" + SplitFrom(s, 3, DotUpper);
    assert SplitFrom(s, 3, DotUpper) == " " + SplitFrom(s, 4, DotUpper);
    assert SplitFrom(s, 4, DotUpper) == " " + SplitFrom(s, 5, DotUpper);
    assert SplitFrom(s, 5, DotUpper) == "p" + SplitFrom(s, 6, DotUpper);
    assert SplitFrom(s, 6, DotUpper) == "r" + SplitFrom(s, 7, DotUpper);
    assert SplitFrom(s, 7, DotUpper) == "o" + SplitFrom(s, 8, DotUpper);
  }

  lemma {:induction false} ProblemsDotUpperPart1(s: string)
    requires ProblemsText2(s)
    ensures SplitFrom(s, 8, DotUpper) == "blems" + SplitFrom(s, 13, DotUpper)
  {
    assert SplitFrom(s, 8, DotUpper) == "b" + SplitFrom(s, 9, DotUpper);
    assert SplitFrom(s, 9, DotUpper) == "l" + SplitFrom(s, 10, DotUpper);
    assert SplitFrom(s, 10, DotUpper) == "e" + SplitFrom(s, 11, DotUpper);
    assert SplitFrom(s, 11, DotUpper) == "m" + SplitFrom(s, 12, DotUpper);
    assert SplitFrom(s, 12, DotUpper) == "s" + SplitFrom(s, 13, DotUpper);
  }

  lemma {:induction false} ProblemsDotUpper(s: string)
    requires ProblemsText2(s)
    ensures ProblemsText2(SplitPass(s, DotUpper))
  {
    ProblemsDotUpperPart0(s);
    ProblemsDotUpperPart1(s);
    assert SplitFrom(s, 13, DotUpper) == [];
  }

  lemma {:induction false} ProblemsCommaLetterPart0(s: string)
    requires ProblemsText2(s)
    ensures SplitFrom(s, 0, CommaLetter) == "540  pro" + SplitFrom(s, 8, CommaLetter)
  {
    assert SplitFrom(s, 0, CommaLetter) == "5" + SplitFrom(s, 1, CommaLetter);
    assert SplitFrom(s, 1, CommaLetter) == "4" + SplitFrom(s, 2, CommaLetter);
    assert SplitFrom(s, 2, CommaLetter) == "0" + SplitFrom(s, 3, CommaLetter);
    assert SplitFrom(s, 3, CommaLetter) == " " + SplitFrom(s, 4, CommaLetter);
    assert SplitFrom(s, 4, CommaLetter) == " " + SplitFrom(s, 5, CommaLetter);
    assert SplitFrom(s, 5, CommaLetter) == "p" + SplitFrom(s, 6, CommaLetter);
    assert SplitFrom(s, 6, CommaLetter) == "r" + SplitFrom(s, 7, CommaLetter);
    assert SplitFrom(s, 7, CommaLetter) == "o" + SplitFrom(s, 8, CommaLetter);
  }

  lemma {:induction false} ProblemsCommaLetterPart1(s: string)
    requires ProblemsText2(s)
    ensures SplitFrom(s, 8, CommaLetter) == "blems" + SplitFrom(s, 13, CommaLetter)
  {
    assert SplitFrom(s, 8, CommaLetter) == "b" + SplitFrom(s, 9, CommaLetter);
    assert SplitFrom(s, 9, CommaLetter) == "l" + SplitFrom(s, 10, CommaLetter);
    assert SplitFrom(s, 10, CommaLetter) == "e" + SplitFrom(s, 11, CommaLetter);
    assert SplitFrom(s, 11, CommaLetter) == "m" + SplitFrom(s, 12, CommaLetter);
    assert SplitFrom(s, 12, CommaLetter) == "s" + SplitFrom(s, 13, CommaLetter);
  }

  lemma {:induction false} ProblemsCommaLetter(s: string)
    requires ProblemsText2(s)
    ensures ProblemsText2(SplitPass(s, CommaLetter))
  {
    ProblemsCommaLetterPart0(s);
    ProblemsCommaLetterPart1(s);
    assert SplitFrom(s, 13, CommaLetter) == [];
  }

  lemma {:induction false} ProblemsLetterParenPart0(s: string)
    requires ProblemsText2(s)
    ensures SplitFrom(s, 0, LetterParen) == "540  pro" + SplitFrom(s, 8, LetterParen)
  {
    assert SplitFrom(s, 0, LetterParen) == "5" + SplitFrom(s, 1, LetterParen);
    assert SplitFrom(s, 1, LetterParen) == "4" + SplitFrom(s, 2, LetterParen);
    assert SplitFrom(s, 2, LetterParen) == "0" + SplitFrom(s, 3, LetterParen);
    assert SplitFrom(s, 3, LetterParen) == " " + SplitFrom(s, 4, LetterParen);
    assert SplitFrom(s, 4, LetterParen) == " " + SplitFrom(s, 5, LetterParen);
    assert SplitFrom(s, 5, LetterParen) == "p" + SplitFrom(s, 6, LetterParen);
    assert SplitFrom(s, 6, LetterParen) == "r" + SplitFrom(s, 7, LetterParen);
    assert SplitFrom(s, 7, LetterParen) == "o" + SplitFrom(s, 8, LetterParen);
  }

  lemma {:induction false} ProblemsLetterParenPart1(s: string)
    requires ProblemsText2(s)
    ensures SplitFrom(s, 8, LetterParen) == "blems" + SplitFrom(s, 13, LetterParen)
  {
    assert SplitFrom(s, 8, LetterParen) == "b" + SplitFrom(s, 9, LetterParen);
    assert SplitFrom(s, 9, LetterParen) == "l" + SplitFrom(s, 10, LetterParen);
    assert SplitFrom(s, 10, LetterParen) == "e" + SplitFrom(s, 11, LetterParen);
    assert SplitFrom(s, 11, LetterParen) == "m" + SplitFrom(s, 12, LetterParen);
    assert SplitFrom(s, 12, LetterParen) == "s" + SplitFrom(s, 13, LetterParen);
  }

  lemma {:induction false} ProblemsLetterParen(s: string)
    requires ProblemsText2(s)
    ensures ProblemsText2(SplitPass(s, LetterParen))
  {
    ProblemsLetterParenPart0(s);
    ProblemsLetterParenPart1(s);
    assert SplitFrom(s, 13, LetterParen) == [];
  }

  lemma {:induction false} ProblemsParenLetterPart0(s: string)
    requires ProblemsText2(s)
    ensures SplitFrom(s, 0, ParenLetter) == "540  pro" + SplitFrom(s, 8, ParenLetter)
  {
    assert SplitFrom(s, 0, ParenLetter) == "5" + SplitFrom(s, 1, ParenLetter);
    assert SplitFrom(s, 1, ParenLetter) == "4" + SplitFrom(s, 2, ParenLetter);
    assert SplitFrom(s, 2, ParenLetter) == "0" + SplitFrom(s, 3, ParenLetter);
    assert SplitFrom(s, 3, ParenLetter) == " " + SplitFrom(s, 4, ParenLetter);
    assert SplitFrom(s, 4, ParenLetter) == " " + SplitFrom(s, 5, ParenLetter);
    assert SplitFrom(s, 5, ParenLetter) == "p" + SplitFrom(s, 6, ParenLetter);
    assert SplitFrom(s, 6, ParenLetter) == "r" + SplitFrom(s, 7, ParenLetter);
    assert SplitFrom(s, 7, ParenLetter) == "o" + SplitFrom(s, 8, ParenLetter);
  }

  lemma {:induction false} ProblemsParenLetterPart1(s: string)
    requires ProblemsText2(s)
    ensures SplitFrom(s, 8, ParenLetter) == "blems" + SplitFrom(s, 13, ParenLetter)
  {
    assert SplitFrom(s, 8, ParenLetter) == "b" + SplitFrom(s, 9, ParenLetter);
    assert SplitFrom(s, 9, ParenLetter) == "l" + SplitFrom(s, 10, ParenLetter);
    assert SplitFrom(s, 10, ParenLetter) == "e" + SplitFrom(s, 11, ParenLetter);
    assert SplitFrom(s, 11, ParenLetter) == "m" + SplitFrom(s, 12, ParenLetter);
    assert SplitFrom(s, 12, ParenLetter) == "s" + SplitFrom(s, 13, ParenLetter);
  }

  lemma {:induction false} ProblemsParenLetter(s: string)
    requires ProblemsText2(s)
    ensures ProblemsText2(SplitPass(s, ParenLetter))
  {
    ProblemsParenLetterPart0(s);
    ProblemsParenLetterPart1(s);
    assert SplitFrom(s, 13, ParenLetter) == [];
  }

  lemma {:induction false} ProblemsLowerUpperPart0(s: string)
    requires ProblemsText2(s)
    ensures SplitFrom(s, 0, LowerUpper) == "540  pro" + SplitFrom(s, 8, LowerUpper)
  {
    assert SplitFrom(s, 0, LowerUpper) == "5" + SplitFrom(s, 1, LowerUpper);
    assert SplitFrom(s, 1, LowerUpper) == "4" + SplitFrom(s, 2, LowerUpper);
    assert SplitFrom(s, 2, LowerUpper) == "0" + SplitFrom(s, 3, LowerUpper);
    assert SplitFrom(s, 3, LowerUpper) == " " + SplitFrom(s, 4, LowerUpper);
    assert SplitFrom(s, 4, LowerUpper) == " " + SplitFrom(s, 5, LowerUpper);
    assert SplitFrom(s, 5, LowerUpper) == "p" + SplitFrom(s, 6, LowerUpper);
    assert SplitFrom(s, 6, LowerUpper) == "r" + SplitFrom(s, 7, LowerUpper);
    assert SplitFrom(s, 7, LowerUpper) == "o" + SplitFrom(s, 8, LowerUpper);
  }

  lemma {:induction false} ProblemsLowerUpperPart1(s: string)
    requires ProblemsText2(s)
    ensures SplitFrom(s, 8, LowerUpper) == "blems" + SplitFrom(s, 13, LowerUpper)
  {
    assert SplitFrom(s, 8, LowerUpper) == "b" + SplitFrom(s, 9, LowerUpper);
    assert SplitFrom(s, 9, LowerUpper) == "l" + SplitFrom(s, 10, LowerUpper);
    assert SplitFrom(s, 10, LowerUpper) == "e" + SplitFrom(s, 11, LowerUpper);
    assert SplitFrom(s, 11, LowerUpper) == "m" + SplitFrom(s, 12, LowerUpper);
    assert SplitFrom(s, 12, LowerUpper) == "s" + SplitFrom(s, 13, LowerUpper);
  }

  lemma {:induction false} ProblemsLowerUpper(s: string)
    requires ProblemsText2(s)
    ensures ProblemsText2(SplitPass(s, LowerUpper))
  {
    ProblemsLowerUpperPart0(s);
    ProblemsLowerUpperPart1(s);
    assert SplitFrom(s, 13, LowerUpper) == [];
  }

  /** `s` is "540 problems", character by character. */
  predicate ProblemsText3(s: string) {
    |s| == 12 && s[0] == '5' && s[1] == '4' && s[2] == '0' && s[3] == ' ' && s[4] == 'p'
    && s[5] == 'r' && s[6] == 'o' && s[7] == 'b' && s[8] == 'l' && s[9] == 'e' && s[10] == 'm'
    && s[11] == 's'
  }

  lemma {:induction false} ProblemsSpacesPart0(s: string)
    requires ProblemsText2(s)
    ensures SqueezeFrom(s, 0, ' ', 2) == "540" + SqueezeFrom(s, 3, ' ', 2)
  {
    assert SqueezeFrom(s, 0, ' ', 2) == "5" + SqueezeFrom(s, 1, ' ', 2);
    assert SqueezeFrom(s, 1, ' ', 2) == "4" + SqueezeFrom(s, 2, ' ', 2);
    assert SqueezeFrom(s, 2, ' ', 2) == "0" + SqueezeFrom(s, 3, ' ', 2);
  }

  lemma {:induction false} ProblemsSpacesPart1(s: string)
    requires ProblemsText2(s)
    ensures SqueezeFrom(s, 3, ' ', 2) == " pr" + SqueezeFrom(s, 7, ' ', 2)
  {
    assert SqueezeFrom(s, 3, ' ', 2) == " " + SqueezeFrom(s, 5, ' ', 2);
    assert SqueezeFrom(s, 5, ' ', 2) == "p" + SqueezeFrom(s, 6, ' ', 2);
    assert SqueezeFrom(s, 6, ' ', 2) == "r" + SqueezeFrom(s, 7, ' ', 2);
  }

  lemma {:induction false} ProblemsSpacesPart2(s: string)
    requires ProblemsText2(s)
    ensures SqueezeFrom(s, 7, ' ', 2) == "obl" + SqueezeFrom(s, 10, ' ', 2)
  {
    assert SqueezeFrom(s, 7, ' ', 2) == "o" + SqueezeFrom(s, 8, ' ', 2);
    assert SqueezeFrom(s, 8, ' ', 2) == "b" + SqueezeFrom(s, 9, ' ', 2);
    assert SqueezeFrom(s, 9, ' ', 2) == "l" + SqueezeFrom(s, 10, ' ', 2);
  }

  lemma {:induction false} ProblemsSpacesPart3(s: string)
    requires ProblemsText2(s)
    ensures SqueezeFrom(s, 10, ' ', 2) == "ems" + SqueezeFrom(s, 13, ' ', 2)
  {
    assert SqueezeFrom(s, 10, ' ', 2) == "e" + SqueezeFrom(s, 11, ' ', 2);
    assert SqueezeFrom(s, 11, ' ', 2) == "m" + SqueezeFrom(s, 12, ' ', 2);
    assert SqueezeFrom(s, 12, ' ', 2) == "s" + SqueezeFrom(s, 13, ' ', 2);
  }

  lemma {:induction false} ProblemsSpaces(s: string)
    requires ProblemsText2(s)
    ensures ProblemsText3(Squeeze(s, ' ', 2))
  {
    ProblemsSpacesPart0(s);
    ProblemsSpacesPart1(s);
    ProblemsSpacesPart2(s);
    ProblemsSpacesPart3(s);
    assert SqueezeFrom(s, 13, ' ', 2) == [];
  }

  lemma {:induction false} ProblemsNewlinesPart0(s: string)
    requires ProblemsText3(s)
    ensures SqueezeFrom(s, 0, '\n', 3) == "540" + SqueezeFrom(s, 3, '\n', 3)
  {
    assert SqueezeFrom(s, 0, '\n', 3) == "5" + SqueezeFrom(s, 1, '\n', 3);
    assert SqueezeFrom(s, 1, '\n', 3) == "4" + SqueezeFrom(s, 2, '\n', 3);
    assert SqueezeFrom(s, 2, '\n', 3) == "0" + SqueezeFrom(s, 3, '\n', 3);
  }

  lemma {:induction false} ProblemsNewlinesPart1(s: string)
    requires ProblemsText3(s)
    ensures SqueezeFrom(s, 3, '\n', 3) == " pr" + SqueezeFrom(s, 6, '\n', 3)
  {
    assert SqueezeFrom(s, 3, '\n', 3) == " " + SqueezeFrom(s, 4, '\n', 3);
    assert SqueezeFrom(s, 4, '\n', 3) == "p" + SqueezeFrom(s, 5, '\n', 3);
    assert SqueezeFrom(s, 5, '\n', 3) == "r" + SqueezeFrom(s, 6, '\n', 3);
  }

  lemma {:induction false} ProblemsNewlinesPart2(s: string)
    requires ProblemsText3(s)
    ensures SqueezeFrom(s, 6, '\n', 3) == "obl" + SqueezeFrom(s, 9, '\n', 3)
  {
    assert SqueezeFrom(s, 6, '\n', 3) == "o" + SqueezeFrom(s, 7, '\n', 3);
    assert SqueezeFrom(s, 7, '\n', 3) == "b" + SqueezeFrom(s, 8, '\n', 3);
    assert SqueezeFrom(s, 8, '\n', 3) == "l" + SqueezeFrom(s, 9, '\n', 3);
  }

  lemma {:induction false} ProblemsNewlinesPart3(s: string)
    requires ProblemsText3(s)
    ensures SqueezeFrom(s, 9, '\n', 3) == "ems" + SqueezeFrom(s, 12, '\n', 3)
  {
    assert SqueezeFrom(s, 9, '\n', 3) == "e" + SqueezeFrom(s, 10, '\n', 3);
    assert SqueezeFrom(s, 10, '\n', 3) == "m" + SqueezeFrom(s, 11, '\n', 3);
    assert SqueezeFrom(s, 11, '\n', 3) == "s" + SqueezeFrom(s, 12, '\n', 3);
  }

  lemma {:induction false} ProblemsNewlines(s: string)
    requires ProblemsText3(s)
    ensures ProblemsText3(Squeeze(s, '\n', 3))
  {
    ProblemsNewlinesPart0(s);
    ProblemsNewlinesPart1(s);
    ProblemsNewlinesPart2(s);
    ProblemsNewlinesPart3(s);
    assert SqueezeFrom(s, 12, '\n', 3) == [];
  }

  lemma {:induction false} ProblemsStrip(s: string)
    requires ProblemsText3(s)
    ensures ProblemsText3(Strip(s))
  {
    assert LeadingSpace(s) == 0;
    assert TrailingSpace(s) == 0;
    assert s[0..][..|s|] == s;
  }

  /** Line 210: the expected result. */
  lemma CleanProblems(text: string)
    requires ProblemsText0(text)
    ensures ProblemsText3(Cleaned(text))
  {
    ProblemsCollapsed(text);
    var t0 := CollapseTimes(text, CollapseRounds);
    ProblemsDotUpper(t0);
    var t1 := SplitPass(t0, DotUpper);
    ProblemsCommaLetter(t1);
    var t2 := SplitPass(t1, CommaLetter);
    ProblemsLetterParen(t2);
    var t3 := SplitPass(t2, LetterParen);
    ProblemsParenLetter(t3);
    var t4 := SplitPass(t3, ParenLetter);
    ProblemsLowerUpper(t4);
    var t5 := SplitPass(t4, LowerUpper);
    ProblemsSpaces(t5);
    var t6 := Squeeze(t5, ' ', 2);
    ProblemsNewlines(t6);
    var t7 := Squeeze(t6, '\n', 3);
    ProblemsStrip(t7);
    assert Cleaned(text) == Strip(t7);
  }

  /** `s` is "Normal text should stay", character by character. */
  predicate NormalText0(s: string) {
    |s| == 23 && s[0] == 'N' && s[1] == 'o' && s[2] == 'r' && s[3] == 'm' && s[4] == 'a'
    && s[5] == 'l' && s[6] == ' ' && s[7] == 't' && s[8] == 'e' && s[9] == 'x' && s[10] == 't'
    && s[11] == ' ' && s[12] == 's' && s[13] == 'h' && s[14] == 'o' && s[15] == 'u' && s[16] == 'l'
    && s[17] == 'd' && s[18] == ' ' && s[19] == 's' && s[20] == 't' && s[21] == 'a' && s[22] == 'y'
  }

  /** `s` is "Normaltextshouldstay", character by character. */
  predicate NormalText1(s: string) {
    |s| == 20 && s[0] == 'N' && s[1] == 'o' && s[2] == 'r' && s[3] == 'm' && s[4] == 'a'
    && s[5] == 'l' && s[6] == 't' && s[7] == 'e' && s[8] == 'x' && s[9] == 't' && s[10] == 's'
    && s[11] == 'h' && s[12] == 'o' && s[13] == 'u' && s[14] == 'l' && s[15] == 'd' && s[16] == 's'
    && s[17] == 't' && s[18] == 'a' && s[19] == 'y'
  }

  lemma {:induction false} NormalCollapse0Part0(s: string)
    requires NormalText0(s)
    ensures CollapseFrom(s, 0) == "Normaltex" + CollapseFrom(s, 10)
  {
    assert CollapseFrom(s, 0) == "N" + CollapseFrom(s, 1);
    assert CollapseFrom(s, 1) == "o" + CollapseFrom(s, 2);
    assert CollapseFrom(s, 2) == "r" + CollapseFrom(s, 3);
    assert CollapseFrom(s, 3) == "m" + CollapseFrom(s, 4);
    assert CollapseFrom(s, 4) == "a" + CollapseFrom(s, 5);
    assert CollapseFrom(s, 5) == "lt" + CollapseFrom(s, 8);
    assert CollapseFrom(s, 8) == "e" + CollapseFrom(s, 9);
    assert CollapseFrom(s, 9) == "x" + CollapseFrom(s, 10);
  }

  lemma {:induction false} NormalCollapse0Part1(s: string)
    requires NormalText0(s)
    ensures CollapseFrom(s, 10) == "tshouldsta" + CollapseFrom(s, 22)
  {
    assert CollapseFrom(s, 10) == "ts" + CollapseFrom(s, 13);
    assert CollapseFrom(s, 13) == "h" + CollapseFrom(s, 14);
    assert CollapseFrom(s, 14) == "o" + CollapseFrom(s, 15);
    assert CollapseFrom(s, 15) == "u" + CollapseFrom(s, 16);
    assert CollapseFrom(s, 16) == "l" + CollapseFrom(s, 17);
    assert CollapseFrom(s, 17) == "ds" + CollapseFrom(s, 20);
    assert CollapseFrom(s, 20) == "t" + CollapseFrom(s, 21);
    assert CollapseFrom(s, 21) == "a" + CollapseFrom(s, 22);
  }

  lemma {:induction false} NormalCollapse0Part2(s: string)
    requires NormalText0(s)
    ensures CollapseFrom(s, 22) == "y" + CollapseFrom(s, 23)
  {
    assert CollapseFrom(s, 22) == "y" + CollapseFrom(s, 23);
  }

  lemma {:induction false} NormalCollapse0(s: string)
    requires NormalText0(s)
    ensures NormalText1(CollapsePass(s))
  {
    NormalCollapse0Part0(s);
    NormalCollapse0Part1(s);
    NormalCollapse0Part2(s);
    assert CollapseFrom(s, 23) == [];
  }

  lemma {:induction false} NormalCollapse1Part0(s: string)
    requires NormalText1(s)
    ensures CollapseFrom(s, 0) == "Normalte" + CollapseFrom(s, 8)
  {
    assert CollapseFrom(s, 0) == "N" + CollapseFrom(s, 1);
    assert CollapseFrom(s, 1) == "o" + CollapseFrom(s, 2);
    assert CollapseFrom(s, 2) == "r" + CollapseFrom(s, 3);
    assert CollapseFrom(s, 3) == "m" + CollapseFrom(s, 4);
    assert CollapseFrom(s, 4) == "a" + CollapseFrom(s, 5);
    assert CollapseFrom(s, 5) == "l" + CollapseFrom(s, 6);
    assert CollapseFrom(s, 6) == "t" + CollapseFrom(s, 7);
    assert CollapseFrom(s, 7) == "e" + CollapseFrom(s, 8);
  }

  lemma {:induction false} NormalCollapse1Part1(s: string)
    requires NormalText1(s)
    ensures CollapseFrom(s, 8) == "xtshould" + CollapseFrom(s, 16)
  {
    assert CollapseFrom(s, 8) == "x" + CollapseFrom(s, 9);
    assert CollapseFrom(s, 9) == "t" + CollapseFrom(s, 10);
    assert CollapseFrom(s, 10) == "s" + CollapseFrom(s, 11);
    assert CollapseFrom(s, 11) == "h" + CollapseFrom(s, 12);
    assert CollapseFrom(s, 12) == "o" + CollapseFrom(s, 13);
    assert CollapseFrom(s, 13) == "u" + CollapseFrom(s, 14);
    assert CollapseFrom(s, 14) == "l" + CollapseFrom(s, 15);
    assert CollapseFrom(s, 15) == "d" + CollapseFrom(s, 16);
  }

  lemma {:induction false} NormalCollapse1Part2(s: string)
    requires NormalText1(s)
    ensures CollapseFrom(s, 16) == "stay" + CollapseFrom(s, 20)
  {
    assert CollapseFrom(s, 16) == "s" + CollapseFrom(s, 17);
    assert CollapseFrom(s, 17) == "t" + CollapseFrom(s, 18);
    assert CollapseFrom(s, 18) == "a" + CollapseFrom(s, 19);
    assert CollapseFrom(s, 19) == "y" + CollapseFrom(s, 20);
  }

  lemma {:induction false} NormalCollapse1(s: string)
    requires NormalText1(s)
    ensures NormalText1(CollapsePass(s))
  {
    NormalCollapse1Part0(s);
    NormalCollapse1Part1(s);
    NormalCollapse1Part2(s);
    assert CollapseFrom(s, 20) == [];
  }

  lemma NormalCollapsed(text: string)
    requires NormalText0(text)
    ensures NormalText1(CollapseTimes(text, CollapseRounds))
  {
    NormalCollapse0(text);
    var c1 := CollapsePass(text);
    assert CollapseTimes(text, 1) == c1;
    NormalCollapse1(c1);
    var c2 := CollapsePass(c1);
    assert CollapseTimes(text, 2) == c2;
    CollapseTimesSettles(text, 1, CollapseRounds);
  }

  lemma {:induction false} NormalDotUpperPart0(s: string)
    requires NormalText1(s)
    ensures SplitFrom(s, 0, DotUpper) == "Normalte" + SplitFrom(s, 8, DotUpper)
  {
    assert SplitFrom(s, 0, DotUpper) == "N" + SplitFrom(s, 1, DotUpper);
    assert SplitFrom(s, 1, DotUpper) == "o" + SplitFrom(s, 2, DotUpper);
    assert SplitFrom(s, 2, DotUpper) == "r" + SplitFrom(s, 3, DotUpper);
    assert SplitFrom(s, 3, DotUpper) == "m" + SplitFrom(s, 4, DotUpper);
    assert SplitFrom(s, 4, DotUpper) == "a" + SplitFrom(s, 5, DotUpper);
    assert SplitFrom(s, 5, DotUpper) == "l" + SplitFrom(s, 6, DotUpper);
    assert SplitFrom(s, 6, DotUpper) == "t" + SplitFrom(s, 7, DotUpper);
    assert SplitFrom(s, 7, DotUpper) == "e" + SplitFrom(s, 8, DotUpper);
  }

  lemma {:induction false} NormalDotUpperPart1(s: string)
    requires NormalText1(s)
    ensures SplitFrom(s, 8, DotUpper) == "xtshould" + SplitFrom(s, 16, DotUpper)
  {
    assert SplitFrom(s, 8, DotUpper) == "x" + SplitFrom(s, 9, DotUpper);
    assert SplitFrom(s, 9, DotUpper) == "t" + SplitFrom(s, 10, DotUpper);
    assert SplitFrom(s, 10, DotUpper) == "s" + SplitFrom(s, 11, DotUpper);
    assert SplitFrom(s, 11, DotUpper) == "h" + SplitFrom(s, 12, DotUpper);
    assert SplitFrom(s, 12, DotUpper) == "o" + SplitFrom(s, 13, DotUpper);
    assert SplitFrom(s, 13, DotUpper) == "u" + SplitFrom(s, 14, DotUpper);
    assert SplitFrom(s, 14, DotUpper) == "l" + SplitFrom(s, 15, DotUpper);
    assert SplitFrom(s, 15, DotUpper) == "d" + SplitFrom(s, 16, DotUpper);
  }

  lemma {:induction false} NormalDotUpperPart2(s: string)
    requires NormalText1(s)
    ensures SplitFrom(s, 16, DotUpper) == "stay" + SplitFrom(s, 20, DotUpper)
  {
    assert SplitFrom(s, 16, DotUpper) == "s" + SplitFrom(s, 17, DotUpper);
    assert SplitFrom(s, 17, DotUpper) == "t" + SplitFrom(s, 18, DotUpper);
    assert SplitFrom(s, 18, DotUpper) == "a" + SplitFrom(s, 19, DotUpper);
    assert SplitFrom(s, 19, DotUpper) == "y" + SplitFrom(s, 20, DotUpper);
  }

  lemma {:induction false} NormalDotUpper(s: string)
    requires NormalText1(s)
    ensures NormalText1(SplitPass(s, DotUpper))
  {
    NormalDotUpperPart0(s);
    NormalDotUpperPart1(s);
    NormalDotUpperPart2(s);
    assert SplitFrom(s, 20, DotUpper) == [];
  }

  lemma {:induction false} NormalCommaLetterPart0(s: string)
    requires NormalText1(s)
    ensures SplitFrom(s, 0, CommaLetter) == "Normalte" + SplitFrom(s, 8, CommaLetter)
  {
    assert SplitFrom(s, 0, CommaLetter) == "N" + SplitFrom(s, 1, CommaLetter);
    assert SplitFrom(s, 1, CommaLetter) == "o" + SplitFrom(s, 2, CommaLetter);
    assert SplitFrom(s, 2, CommaLetter) == "r" + SplitFrom(s, 3, CommaLetter);
    assert SplitFrom(s, 3, CommaLetter) == "m" + SplitFrom(s, 4, CommaLetter);
    assert SplitFrom(s, 4, CommaLetter) == "a" + SplitFrom(s, 5, CommaLetter);
    assert SplitFrom(s, 5, CommaLetter) == "l" + SplitFrom(s, 6, CommaLetter);
    assert SplitFrom(s, 6, CommaLetter) == "t" + SplitFrom(s, 7, CommaLetter);
    assert SplitFrom(s, 7, CommaLetter) == "e" + SplitFrom(s, 8, CommaLetter);
  }

  lemma {:induction false} NormalCommaLetterPart1(s: string)
    requires NormalText1(s)
    ensures SplitFrom(s, 8, CommaLetter) == "xtshould" + SplitFrom(s, 16, CommaLetter)
  {
    assert SplitFrom(s, 8, CommaLetter) == "x" + SplitFrom(s, 9, CommaLetter);
    assert SplitFrom(s, 9, CommaLetter) == "t" + SplitFrom(s, 10, CommaLetter);
    assert SplitFrom(s, 10, CommaLetter) == "s" + SplitFrom(s, 11, CommaLetter);
    assert SplitFrom(s, 11, CommaLetter) == "h" + SplitFrom(s, 12, CommaLetter);
    assert SplitFrom(s, 12, CommaLetter) == "o" + SplitFrom(s, 13, CommaLetter);
    assert SplitFrom(s, 13, CommaLetter) == "u" + SplitFrom(s, 14, CommaLetter);
    assert SplitFrom(s, 14, CommaLetter) == "l" + SplitFrom(s, 15, CommaLetter);
    assert SplitFrom(s, 15, CommaLetter) == "d" + SplitFrom(s, 16, CommaLetter);
  }

  lemma {:induction false} NormalCommaLetterPart2(s: string)
    requires NormalText1(s)
    ensures SplitFrom(s, 16, CommaLetter) == "stay" + SplitFrom(s, 20, CommaLetter)
  {
    assert SplitFrom(s, 16, CommaLetter) == "s" + SplitFrom(s, 17, CommaLetter);
    assert SplitFrom(s, 17, CommaLetter) == "t" + SplitFrom(s, 18, CommaLetter);
    assert SplitFrom(s, 18, CommaLetter) == "a" + SplitFrom(s, 19, CommaLetter);
    assert SplitFrom(s, 19, CommaLetter) == "y" + SplitFrom(s, 20, CommaLetter);
  }

  lemma {:induction false} NormalCommaLetter(s: string)
    requires NormalText1(s)
    ensures NormalText1(SplitPass(s, CommaLetter))
  {
    NormalCommaLetterPart0(s);
    NormalCommaLetterPart1(s);
    NormalCommaLetterPart2(s);
    assert SplitFrom(s, 20, CommaLetter) == [];
  }

  lemma {:induction false} NormalLetterParenPart0(s: string)
    requires NormalText1(s)
    ensures SplitFrom(s, 0, LetterParen) == "Normalte" + SplitFrom(s, 8, LetterParen)
  {
    assert SplitFrom(s, 0, LetterParen) == "N" + SplitFrom(s, 1, LetterParen);
    assert SplitFrom(s, 1, LetterParen) == "o" + SplitFrom(s, 2, LetterParen);
    assert SplitFrom(s, 2, LetterParen) == "r" + SplitFrom(s, 3, LetterParen);
    assert SplitFrom(s, 3, LetterParen) == "m" + SplitFrom(s, 4, LetterParen);
    assert SplitFrom(s, 4, LetterParen) == "a" + SplitFrom(s, 5, LetterParen);
    assert SplitFrom(s, 5, LetterParen) == "l" + SplitFrom(s, 6, LetterParen);
    assert SplitFrom(s, 6, LetterParen) == "t" + SplitFrom(s, 7, LetterParen);
    assert SplitFrom(s, 7, LetterParen) == "e" + SplitFrom(s, 8, LetterParen);
  }

  lemma {:induction false} NormalLetterParenPart1(s: string)
    requires NormalText1(s)
    ensures SplitFrom(s, 8, LetterParen) == "xtshould" + SplitFrom(s, 16, LetterParen)
  {
    assert SplitFrom(s, 8, LetterParen) == "x" + SplitFrom(s, 9, LetterParen);
    assert SplitFrom(s, 9, LetterParen) == "t" + SplitFrom(s, 10, LetterParen);
    assert SplitFrom(s, 10, LetterParen) == "s" + SplitFrom(s, 11, LetterParen);
    assert SplitFrom(s, 11, LetterParen) == "h" + SplitFrom(s, 12, LetterParen);
    assert SplitFrom(s, 12, LetterParen) == "o" + SplitFrom(s, 13, LetterParen);
    assert SplitFrom(s, 13, LetterParen) == "u" + SplitFrom(s, 14, LetterParen);
    assert SplitFrom(s, 14, LetterParen) == "l" + SplitFrom(s, 15, LetterParen);
    assert SplitFrom(s, 15, LetterParen) == "d" + SplitFrom(s, 16, LetterParen);
  }

  lemma {:induction false} NormalLetterParenPart2(s: string)
    requires NormalText1(s)
    ensures SplitFrom(s, 16, LetterParen) == "stay" + SplitFrom(s, 20, LetterParen)
  {
    assert SplitFrom(s, 16, LetterParen) == "s" + SplitFrom(s, 17, LetterParen);
    assert SplitFrom(s, 17, LetterParen) == "t" + SplitFrom(s, 18, LetterParen);
    assert SplitFrom(s, 18, LetterParen) == "a" + SplitFrom(s, 19, LetterParen);
    assert SplitFrom(s, 19, LetterParen) == "y" + SplitFrom(s, 20, LetterParen);
  }

  lemma {:induction false} NormalLetterParen(s: string)
    requires NormalText1(s)
    ensures NormalText1(SplitPass(s, LetterParen))
  {
    NormalLetterParenPart0(s);
    NormalLetterParenPart1(s);
    NormalLetterParenPart2(s);
    assert SplitFrom(s, 20, LetterParen) == [];
  }

  lemma {:induction false} NormalParenLetterPart0(s: string)
    requires NormalText1(s)
    ensures SplitFrom(s, 0, ParenLetter) == "Normalte" + SplitFrom(s, 8, ParenLetter)
  {
    assert SplitFrom(s, 0, ParenLetter) == "N" + SplitFrom(s, 1, ParenLetter);
    assert SplitFrom(s, 1, ParenLetter) == "o" + SplitFrom(s, 2, ParenLetter);
    assert SplitFrom(s, 2, ParenLetter) == "r" + SplitFrom(s, 3, ParenLetter);
    assert SplitFrom(s, 3, ParenLetter) == "m" + SplitFrom(s, 4, ParenLetter);
    assert SplitFrom(s, 4, ParenLetter) == "a" + SplitFrom(s, 5, ParenLetter);
    assert SplitFrom(s, 5, ParenLetter) == "l" + SplitFrom(s, 6, ParenLetter);
    assert SplitFrom(s, 6, ParenLetter) == "t" + SplitFrom(s, 7, ParenLetter);
    assert SplitFrom(s, 7, ParenLetter) == "e" + SplitFrom(s, 8, ParenLetter);
  }

  lemma {:induction false} NormalParenLetterPart1(s: string)
    requires NormalText1(s)
    ensures SplitFrom(s, 8, ParenLetter) == "xtshould" + SplitFrom(s, 16, ParenLetter)
  {
    assert SplitFrom(s, 8, ParenLetter) == "x" + SplitFrom(s, 9, ParenLetter);
    assert SplitFrom(s, 9, ParenLetter) == "t" + SplitFrom(s, 10, ParenLetter);
    assert SplitFrom(s, 10, ParenLetter) == "s" + SplitFrom(s, 11, ParenLetter);
    assert SplitFrom(s, 11, ParenLetter) == "h" + SplitFrom(s, 12, ParenLetter);
    assert SplitFrom(s, 12, ParenLetter) == "o" + SplitFrom(s, 13, ParenLetter);
    assert SplitFrom(s, 13, ParenLetter) == "u" + SplitFrom(s, 14, ParenLetter);
    assert SplitFrom(s, 14, ParenLetter) == "l" + SplitFrom(s, 15, ParenLetter);
    assert SplitFrom(s, 15, ParenLetter) == "d" + SplitFrom(s, 16, ParenLetter);
  }

  lemma {:induction false} NormalParenLetterPart2(s: string)
    requires NormalText1(s)
    ensures SplitFrom(s, 16, ParenLetter) == "stay" + SplitFrom(s, 20, ParenLetter)
  {
    assert SplitFrom(s, 16, ParenLetter) == "s" + SplitFrom(s, 17, ParenLetter);
    assert SplitFrom(s, 17, ParenLetter) == "t" + SplitFrom(s, 18, ParenLetter);
    assert SplitFrom(s, 18, ParenLetter) == "a" + SplitFrom(s, 19, ParenLetter);
    assert SplitFrom(s, 19, ParenLetter) == "y" + SplitFrom(s, 20, ParenLetter);
  }

  lemma {:induction false} NormalParenLetter(s: string)
    requires NormalText1(s)
    ensures NormalText1(SplitPass(s, ParenLetter))
  {
    NormalParenLetterPart0(s);
    NormalParenLetterPart1(s);
    NormalParenLetterPart2(s);
    assert SplitFrom(s, 20, ParenLetter) == [];
  }

  lemma {:induction false} NormalLowerUpperPart0(s: string)
    requires NormalText1(s)
    ensures SplitFrom(s, 0, LowerUpper) == "Normalte" + SplitFrom(s, 8, LowerUpper)
  {
    assert SplitFrom(s, 0, LowerUpper) == "N" + SplitFrom(s, 1, LowerUpper);
    assert SplitFrom(s, 1, LowerUpper) == "o" + SplitFrom(s, 2, LowerUpper);
    assert SplitFrom(s, 2, LowerUpper) == "r" + SplitFrom(s, 3, LowerUpper);
    assert SplitFrom(s, 3, LowerUpper) == "m" + SplitFrom(s, 4, LowerUpper);
    assert SplitFrom(s, 4, LowerUpper) == "a" + SplitFrom(s, 5, LowerUpper);
    assert SplitFrom(s, 5, LowerUpper) == "l" + SplitFrom(s, 6, LowerUpper);
    assert SplitFrom(s, 6, LowerUpper) == "t" + SplitFrom(s, 7, LowerUpper);
    assert SplitFrom(s, 7, LowerUpper) == "e" + SplitFrom(s, 8, LowerUpper);
  }

  lemma {:induction false} NormalLowerUpperPart1(s: string)
    requires NormalText1(s)
    ensures SplitFrom(s, 8, LowerUpper) == "xtshould" + SplitFrom(s, 16, LowerUpper)
  {
    assert SplitFrom(s, 8, LowerUpper) == "x" + SplitFrom(s, 9, LowerUpper);
    assert SplitFrom(s, 9, LowerUpper) == "t" + SplitFrom(s, 10, LowerUpper);
    assert SplitFrom(s, 10, LowerUpper) == "s" + SplitFrom(s, 11, LowerUpper);
    assert SplitFrom(s, 11, LowerUpper) == "h" + SplitFrom(s, 12, LowerUpper);
    assert SplitFrom(s, 12, LowerUpper) == "o" + SplitFrom(s, 13, LowerUpper);
    assert SplitFrom(s, 13, LowerUpper) == "u" + SplitFrom(s, 14, LowerUpper);
    assert SplitFrom(s, 14, LowerUpper) == "l" + SplitFrom(s, 15, LowerUpper);
    assert SplitFrom(s, 15, LowerUpper) == "d" + SplitFrom(s, 16, LowerUpper);
  }

  lemma {:induction false} NormalLowerUpperPart2(s: string)
    requires NormalText1(s)
    ensures SplitFrom(s, 16, LowerUpper) == "stay" + SplitFrom(s, 20, LowerUpper)
  {
    assert SplitFrom(s, 16, LowerUpper) == "s" + SplitFrom(s, 17, LowerUpper);
    assert SplitFrom(s, 17, LowerUpper) == "t" + SplitFrom(s, 18, LowerUpper);
    assert SplitFrom(s, 18, LowerUpper) == "a" + SplitFrom(s, 19, LowerUpper);
    assert SplitFrom(s, 19, LowerUpper) == "y" + SplitFrom(s, 20, LowerUpper);
  }

  lemma {:induction false} NormalLowerUpper(s: string)
    requires NormalText1(s)
    ensures NormalText1(SplitPass(s, LowerUpper))
  {
    NormalLowerUpperPart0(s);
    NormalLowerUpperPart1(s);
    NormalLowerUpperPart2(s);
    assert SplitFrom(s, 20, LowerUpper) == [];
  }

  lemma {:induction false} NormalSpacesPart0(s: string)
    requires NormalText1(s)
    ensures SqueezeFrom(s, 0, ' ', 2) == "Nor" + SqueezeFrom(s, 3, ' ', 2)
  {
    assert SqueezeFrom(s, 0, ' ', 2) == "N" + SqueezeFrom(s, 1, ' ', 2);
    assert SqueezeFrom(s, 1, ' ', 2) == "o" + SqueezeFrom(s, 2, ' ', 2);
    assert SqueezeFrom(s, 2, ' ', 2) == "r" + SqueezeFrom(s, 3, ' ', 2);
  }

  lemma {:induction false} NormalSpacesPart1(s: string)
    requires NormalText1(s)
    ensures SqueezeFrom(s, 3, ' ', 2) == "mal" + SqueezeFrom(s, 6, ' ', 2)
  {
    assert SqueezeFrom(s, 3, ' ', 2) == "m" + SqueezeFrom(s, 4, ' ', 2);
    assert SqueezeFrom(s, 4, ' ', 2) == "a" + SqueezeFrom(s, 5, ' ', 2);
    assert SqueezeFrom(s, 5, ' ', 2) == "l" + SqueezeFrom(s, 6, ' ', 2);
  }

  lemma {:induction false} NormalSpacesPart2(s: string)
    requires NormalText1(s)
    ensures SqueezeFrom(s, 6, ' ', 2) == "tex" + SqueezeFrom(s, 9, ' ', 2)
  {
    assert SqueezeFrom(s, 6, ' ', 2) == "t" + SqueezeFrom(s, 7, ' ', 2);
    assert SqueezeFrom(s, 7, ' ', 2) == "e" + SqueezeFrom(s, 8, ' ', 2);
    assert SqueezeFrom(s, 8, ' ', 2) == "x" + SqueezeFrom(s, 9, ' ', 2);
  }

  lemma {:induction false} NormalSpacesPart3(s: string)
    requires NormalText1(s)
    ensures SqueezeFrom(s, 9, ' ', 2) == "tsh" + SqueezeFrom(s, 12, ' ', 2)
  {
    assert SqueezeFrom(s, 9, ' ', 2) == "t" + SqueezeFrom(s, 10, ' ', 2);
    assert SqueezeFrom(s, 10, ' ', 2) == "s" + SqueezeFrom(s, 11, ' ', 2);
    assert SqueezeFrom(s, 11, ' ', 2) == "h" + SqueezeFrom(s, 12, ' ', 2);
  }

  lemma {:induction false} NormalSpacesPart4(s: string)
    requires NormalText1(s)
    ensures SqueezeFrom(s, 12, ' ', 2) == "oul" + SqueezeFrom(s, 15, ' ', 2)
  {
    assert SqueezeFrom(s, 12, ' ', 2) == "o" + SqueezeFrom(s, 13, ' ', 2);
    assert SqueezeFrom(s, 13, ' ', 2) == "u" + SqueezeFrom(s, 14, ' ', 2);
    assert SqueezeFrom(s, 14, ' ', 2) == "l" + SqueezeFrom(s, 15, ' ', 2);
  }

  lemma {:induction false} NormalSpacesPart5(s: string)
    requires NormalText1(s)
    ensures SqueezeFrom(s, 15, ' ', 2) == "dst" + SqueezeFrom(s, 18, ' ', 2)
  {
    assert SqueezeFrom(s, 15, ' ', 2) == "d" + SqueezeFrom(s, 16, ' ', 2);
    assert SqueezeFrom(s, 16, ' ', 2) == "s" + SqueezeFrom(s, 17, ' ', 2);
    assert SqueezeFrom(s, 17, ' ', 2) == "t" + SqueezeFrom(s, 18, ' ', 2);
  }

  lemma {:induction false} NormalSpacesPart6(s: string)
    requires NormalText1(s)
    ensures SqueezeFrom(s, 18, ' ', 2) == "ay" + SqueezeFrom(s, 20, ' ', 2)
  {
    assert SqueezeFrom(s, 18, ' ', 2) == "a" + SqueezeFrom(s, 19, ' ', 2);
    assert SqueezeFrom(s, 19, ' ', 2) == "y" + SqueezeFrom(s, 20, ' ', 2);
  }

  lemma {:induction false} NormalSpaces(s: string)
    requires NormalText1(s)
    ensures NormalText1(Squeeze(s, ' ', 2))
  {
    NormalSpacesPart0(s);
    NormalSpacesPart1(s);
    NormalSpacesPart2(s);
    NormalSpacesPart3(s);
    NormalSpacesPart4(s);
    NormalSpacesPart5(s);
    NormalSpacesPart6(s);
    assert SqueezeFrom(s, 20, ' ', 2) == [];
  }

  lemma {:induction false} NormalNewlinesPart0(s: string)
    requires NormalText1(s)
    ensures SqueezeFrom(s, 0, '\n', 3) == "Nor" + SqueezeFrom(s, 3, '\n', 3)
  {
    assert SqueezeFrom(s, 0, '\n', 3) == "N" + SqueezeFrom(s, 1, '\n', 3);
    assert SqueezeFrom(s, 1, '\n', 3) == "o" + SqueezeFrom(s, 2, '\n', 3);
    assert SqueezeFrom(s, 2, '\n', 3) == "r" + SqueezeFrom(s, 3, '\n', 3);
  }

  lemma {:induction false} NormalNewlinesPart1(s: string)
    requires NormalText1(s)
    ensures SqueezeFrom(s, 3, '\n', 3) == "mal" + SqueezeFrom(s, 6, '\n', 3)
  {
    assert SqueezeFrom(s, 3, '\n', 3) == "m" + SqueezeFrom(s, 4, '\n', 3);
    assert SqueezeFrom(s, 4, '\n', 3) == "a" + SqueezeFrom(s, 5, '\n', 3);
    assert SqueezeFrom(s, 5, '\n', 3) == "l" + SqueezeFrom(s, 6, '\n', 3);
  }

  lemma {:induction false} NormalNewlinesPart2(s: string)
    requires NormalText1(s)
    ensures SqueezeFrom(s, 6, '\n', 3) == "tex" + SqueezeFrom(s, 9, '\n', 3)
  {
    assert SqueezeFrom(s, 6, '\n', 3) == "t" + SqueezeFrom(s, 7, '\n', 3);
    assert SqueezeFrom(s, 7, '\n', 3) == "e" + SqueezeFrom(s, 8, '\n', 3);
    assert SqueezeFrom(s, 8, '\n', 3) == "x" + SqueezeFrom(s, 9, '\n', 3);
  }

  lemma {:induction false} NormalNewlinesPart3(s: string)
    requires NormalText1(s)
    ensures SqueezeFrom(s, 9, '\n', 3) == "tsh" + SqueezeFrom(s, 12, '\n', 3)
  {
    assert SqueezeFrom(s, 9, '\n', 3) == "t" + SqueezeFrom(s, 10, '\n', 3);
    assert SqueezeFrom(s, 10, '\n', 3) == "s" + SqueezeFrom(s, 11, '\n', 3);
    assert SqueezeFrom(s, 11, '\n', 3) == "h" + SqueezeFrom(s, 12, '\n', 3);
  }

  lemma {:induction false} NormalNewlinesPart4(s: string)
    requires NormalText1(s)
    ensures SqueezeFrom(s, 12, '\n', 3) == "oul" + SqueezeFrom(s, 15, '\n', 3)
  {
    assert SqueezeFrom(s, 12, '\n', 3) == "o" + SqueezeFrom(s, 13, '\n', 3);
    assert SqueezeFrom(s, 13, '\n', 3) == "u" + SqueezeFrom(s, 14, '\n', 3);
    assert SqueezeFrom(s, 14, '\n', 3) == "l" + SqueezeFrom(s, 15, '\n', 3);
  }

  lemma {:induction false} NormalNewlinesPart5(s: string)
    requires NormalText1(s)
    ensures SqueezeFrom(s, 15, '\n', 3) == "dst" + SqueezeFrom(s, 18, '\n', 3)
  {
    assert SqueezeFrom(s, 15, '\n', 3) == "d" + SqueezeFrom(s, 16, '\n', 3);
    assert SqueezeFrom(s, 16, '\n', 3) == "s" + SqueezeFrom(s, 17, '\n', 3);
    assert SqueezeFrom(s, 17, '\n', 3) == "t" + SqueezeFrom(s, 18, '\n', 3);
  }

  lemma {:induction false} NormalNewlinesPart6(s: string)
    requires NormalText1(s)
    ensures SqueezeFrom(s, 18, '\n', 3) == "ay" + SqueezeFrom(s, 20, '\n', 3)
  {
    assert SqueezeFrom(s, 18, '\n', 3) == "a" + SqueezeFrom(s, 19, '\n', 3);
    assert SqueezeFrom(s, 19, '\n', 3) == "y" + SqueezeFrom(s, 20, '\n', 3);
  }

  lemma {:induction false} NormalNewlines(s: string)
    requires NormalText1(s)
    ensures NormalText1(Squeeze(s, '\n', 3))
  {
    NormalNewlinesPart0(s);
    NormalNewlinesPart1(s);
    NormalNewlinesPart2(s);
    NormalNewlinesPart3(s);
    NormalNewlinesPart4(s);
    NormalNewlinesPart5(s);
    NormalNewlinesPart6(s);
    assert SqueezeFrom(s, 20, '\n', 3) == [];
  }

  lemma {:induction false} NormalStrip(s: string)
    requires NormalText1(s)
    ensures NormalText1(Strip(s))
  {
    assert LeadingSpace(s) == 0;
    assert TrailingSpace(s) == 0;
    assert s[0..][..|s|] == s;
  }

  /** Line 211: not the expected unchanged text; every single space between two letters is collapsed. */
  lemma CleanNormalText(text: string)
    requires NormalText0(text)
    ensures NormalText1(Cleaned(text))
  {
    NormalCollapsed(text);
    var t0 := CollapseTimes(text, CollapseRounds);
    NormalDotUpper(t0);
    var t1 := SplitPass(t0, DotUpper);
    NormalCommaLetter(t1);
    var t2 := SplitPass(t1, CommaLetter);
    NormalLetterParen(t2);
    var t3 := SplitPass(t2, LetterParen);
    NormalParenLetter(t3);
    var t4 := SplitPass(t3, ParenLetter);
    NormalLowerUpper(t4);
    var t5 := SplitPass(t4, LowerUpper);
    NormalSpaces(t5);
    var t6 := Squeeze(t5, ' ', 2);
    NormalNewlines(t6);
    var t7 := Squeeze(t6, '\n', 3);
    NormalStrip(t7);
    assert Cleaned(text) == Strip(t7);
  }

  /** `s` is "May2025 - Aug2025", character by character. */
  predicate AgainText0(s: string) {
    |s| == 17 && s[0] == 'M' && s[1] == 'a' && s[2] == 'y' && s[3] == '2' && s[4] == '0'
    && s[5] == '2' && s[6] == '5' && s[7] == ' ' && s[8] == '-' && s[9] == ' ' && s[10] == 'A'
    && s[11] == 'u' && s[12] == 'g' && s[13] == '2' && s[14] == '0' && s[15] == '2' && s[16] == '5'
  }

  lemma {:induction false} AgainCollapse0Part0(s: string)
    requires MonthRangeText3(s)
    ensures CollapseFrom(s, 0) == "May2025 -" + CollapseFrom(s, 10)
  {
    assert CollapseFrom(s, 0) == "M" + CollapseFrom(s, 1);
    assert CollapseFrom(s, 1) == "a" + CollapseFrom(s, 2);
    assert CollapseFrom(s, 2) == "y2" + CollapseFrom(s, 5);
    assert CollapseFrom(s, 5) == "0" + CollapseFrom(s, 6);
    assert CollapseFrom(s, 6) == "2" + CollapseFrom(s, 7);
    assert CollapseFrom(s, 7) == "5" + CollapseFrom(s, 8);
    assert CollapseFrom(s, 8) == " " + CollapseFrom(s, 9);
    assert CollapseFrom(s, 9) == "-" + CollapseFrom(s, 10);
  }

  lemma {:induction false} AgainCollapse0Part1(s: string)
    requires MonthRangeText3(s)
    ensures CollapseFrom(s, 10) == " Aug2025" + CollapseFrom(s, 19)
  {
    assert CollapseFrom(s, 10) == " " + CollapseFrom(s, 11);
    assert CollapseFrom(s, 11) == "A" + CollapseFrom(s, 12);
    assert CollapseFrom(s, 12) == "u" + CollapseFrom(s, 13);
    assert CollapseFrom(s, 13) == "g2" + CollapseFrom(s, 16);
    assert CollapseFrom(s, 16) == "0" + CollapseFrom(s, 17);
    assert CollapseFrom(s, 17) == "2" + CollapseFrom(s, 18);
    assert CollapseFrom(s, 18) == "5" + CollapseFrom(s, 19);
  }

  lemma {:induction false} AgainCollapse0(s: string)
    requires MonthRangeText3(s)
    ensures AgainText0(CollapsePass(s))
  {
    AgainCollapse0Part0(s);
    AgainCollapse0Part1(s);
    assert CollapseFrom(s, 19) == [];
  }

  lemma {:induction false} AgainCollapse1Part0(s: string)
    requires AgainText0(s)
    ensures CollapseFrom(s, 0) == "May2025 " + CollapseFrom(s, 8)
  {
    assert CollapseFrom(s, 0) == "M" + CollapseFrom(s, 1);
    assert CollapseFrom(s, 1) == "a" + CollapseFrom(s, 2);
    assert CollapseFrom(s, 2) == "y" + CollapseFrom(s, 3);
    assert CollapseFrom(s, 3) == "2" + CollapseFrom(s, 4);
    assert CollapseFrom(s, 4) == "0" + CollapseFrom(s, 5);
    assert CollapseFrom(s, 5) == "2" + CollapseFrom(s, 6);
    assert CollapseFrom(s, 6) == "5" + CollapseFrom(s, 7);
    assert CollapseFrom(s, 7) == " " + CollapseFrom(s, 8);
  }

  lemma {:induction false} AgainCollapse1Part1(s: string)
    requires AgainText0(s)
    ensures CollapseFrom(s, 8) == "- Aug202" + CollapseFrom(s, 16)
  {
    assert CollapseFrom(s, 8) == "-" + CollapseFrom(s, 9);
    assert CollapseFrom(s, 9) == " " + CollapseFrom(s, 10);
    assert CollapseFrom(s, 10) == "A" + CollapseFrom(s, 11);
    assert CollapseFrom(s, 11) == "u" + CollapseFrom(s, 12);
    assert CollapseFrom(s, 12) == "g" + CollapseFrom(s, 13);
    assert CollapseFrom(s, 13) == "2" + CollapseFrom(s, 14);
    assert CollapseFrom(s, 14) == "0" + CollapseFrom(s, 15);
    assert CollapseFrom(s, 15) == "2" + CollapseFrom(s, 16);
  }

  lemma {:induction false} AgainCollapse1Part2(s: string)
    requires AgainText0(s)
    ensures CollapseFrom(s, 16) == "5" + CollapseFrom(s, 17)
  {
    assert CollapseFrom(s, 16) == "5" + CollapseFrom(s, 17);
  }

  lemma {:induction false} AgainCollapse1(s: string)
    requires AgainText0(s)
    ensures AgainText0(CollapsePass(s))
  {
    AgainCollapse1Part0(s);
    AgainCollapse1Part1(s);
    AgainCollapse1Part2(s);
    assert CollapseFrom(s, 17) == [];
  }

  lemma AgainCollapsed(text: string)
    requires MonthRangeText3(text)
    ensures AgainText0(CollapseTimes(text, CollapseRounds))
  {
    AgainCollapse0(text);
    var c1 := CollapsePass(text);
    assert CollapseTimes(text, 1) == c1;
    AgainCollapse1(c1);
    var c2 := CollapsePass(c1);
    assert CollapseTimes(text, 2) == c2;
    CollapseTimesSettles(text, 1, CollapseRounds);
  }

  lemma {:induction false} AgainDotUpperPart0(s: string)
    requires AgainText0(s)
    ensures SplitFrom(s, 0, DotUpper) == "May2025 " + SplitFrom(s, 8, DotUpper)
  {
    assert SplitFrom(s, 0, DotUpper) == "M" + SplitFrom(s, 1, DotUpper);
    assert SplitFrom(s, 1, DotUpper) == "a" + SplitFrom(s, 2, DotUpper);
    assert SplitFrom(s, 2, DotUpper) == "y" + SplitFrom(s, 3, DotUpper);
    assert SplitFrom(s, 3, DotUpper) == "2" + SplitFrom(s, 4, DotUpper);
    assert SplitFrom(s, 4, DotUpper) == "0" + SplitFrom(s, 5, DotUpper);
    assert SplitFrom(s, 5, DotUpper) == "2" + SplitFrom(s, 6, DotUpper);
    assert SplitFrom(s, 6, DotUpper) == "5" + SplitFrom(s, 7, DotUpper);
    assert SplitFrom(s, 7, DotUpper) == " " + SplitFrom(s, 8, DotUpper);
  }

  lemma {:induction false} AgainDotUpperPart1(s: string)
    requires AgainText0(s)
    ensures SplitFrom(s, 8, DotUpper) == "- Aug202" + SplitFrom(s, 16, DotUpper)
  {
    assert SplitFrom(s, 8, DotUpper) == "-" + SplitFrom(s, 9, DotUpper);
    assert SplitFrom(s, 9, DotUpper) == " " + SplitFrom(s, 10, DotUpper);
    assert SplitFrom(s, 10, DotUpper) == "A" + SplitFrom(s, 11, DotUpper);
    assert SplitFrom(s, 11, DotUpper) == "u" + SplitFrom(s, 12, DotUpper);
    assert SplitFrom(s, 12, DotUpper) == "g" + SplitFrom(s, 13, DotUpper);
    assert SplitFrom(s, 13, DotUpper) == "2" + SplitFrom(s, 14, DotUpper);
    assert SplitFrom(s, 14, DotUpper) == "0" + SplitFrom(s, 15, DotUpper);
    assert SplitFrom(s, 15, DotUpper) == "2" + SplitFrom(s, 16, DotUpper);
  }

  lemma {:induction false} AgainDotUpperPart2(s: string)
    requires AgainText0(s)
    ensures SplitFrom(s, 16, DotUpper) == "5" + SplitFrom(s, 17, DotUpper)
  {
    assert SplitFrom(s, 16, DotUpper) == "5" + SplitFrom(s, 17, DotUpper);
  }

  lemma {:induction false} AgainDotUpper(s: string)
    requires AgainText0(s)
    ensures AgainText0(SplitPass(s, DotUpper))
  {
    AgainDotUpperPart0(s);
    AgainDotUpperPart1(s);
    AgainDotUpperPart2(s);
    assert SplitFrom(s, 17, DotUpper) == [];
  }

  lemma {:induction false} AgainCommaLetterPart0(s: string)
    requires AgainText0(s)
    ensures SplitFrom(s, 0, CommaLetter) == "May2025 " + SplitFrom(s, 8, CommaLetter)
  {
    assert SplitFrom(s, 0, CommaLetter) == "M" + SplitFrom(s, 1, CommaLetter);
    assert SplitFrom(s, 1, CommaLetter) == "a" + SplitFrom(s, 2, CommaLetter);
    assert SplitFrom(s, 2, CommaLetter) == "y" + SplitFrom(s, 3, CommaLetter);
    assert SplitFrom(s, 3, CommaLetter) == "2" + SplitFrom(s, 4, CommaLetter);
    assert SplitFrom(s, 4, CommaLetter) == "0" + SplitFrom(s, 5, CommaLetter);
    assert SplitFrom(s, 5, CommaLetter) == "2" + SplitFrom(s, 6, CommaLetter);
    assert SplitFrom(s, 6, CommaLetter) == "5" + SplitFrom(s, 7, CommaLetter);
    assert SplitFrom(s, 7, CommaLetter) == " " + SplitFrom(s, 8, CommaLetter);
  }

  lemma {:induction false} AgainCommaLetterPart1(s: string)
    requires AgainText0(s)
    ensures SplitFrom(s, 8, CommaLetter) == "- Aug202" + SplitFrom(s, 16, CommaLetter)
  {
    assert SplitFrom(s, 8, CommaLetter) == "-" + SplitFrom(s, 9, CommaLetter);
    assert SplitFrom(s, 9, CommaLetter) == " " + SplitFrom(s, 10, CommaLetter);
    assert SplitFrom(s, 10, CommaLetter) == "A" + SplitFrom(s, 11, CommaLetter);
    assert SplitFrom(s, 11, CommaLetter) == "u" + SplitFrom(s, 12, CommaLetter);
    assert SplitFrom(s, 12, CommaLetter) == "g" + SplitFrom(s, 13, CommaLetter);
    assert SplitFrom(s, 13, CommaLetter) == "2" + SplitFrom(s, 14, CommaLetter);
    assert SplitFrom(s, 14, CommaLetter) == "0" + SplitFrom(s, 15, CommaLetter);
    assert SplitFrom(s, 15, CommaLetter) == "2" + SplitFrom(s, 16, CommaLetter);
  }

  lemma {:induction false} AgainCommaLetterPart2(s: string)
    requires AgainText0(s)
    ensures SplitFrom(s, 16, CommaLetter) == "5" + SplitFrom(s, 17, CommaLetter)
  {
    assert SplitFrom(s, 16, CommaLetter) == "5" + SplitFrom(s, 17, CommaLetter);
  }

  lemma {:induction false} AgainCommaLetter(s: string)
    requires AgainText0(s)
    ensures AgainText0(SplitPass(s, CommaLetter))
  {
    AgainCommaLetterPart0(s);
    AgainCommaLetterPart1(s);
    AgainCommaLetterPart2(s);
    assert SplitFrom(s, 17, CommaLetter) == [];
  }

  lemma {:induction false} AgainLetterParenPart0(s: string)
    requires AgainText0(s)
    ensures SplitFrom(s, 0, LetterParen) == "May2025 " + SplitFrom(s, 8, LetterParen)
  {
    assert SplitFrom(s, 0, LetterParen) == "M" + SplitFrom(s, 1, LetterParen);
    assert SplitFrom(s, 1, LetterParen) == "a" + SplitFrom(s, 2, LetterParen);
    assert SplitFrom(s, 2, LetterParen) == "y" + SplitFrom(s, 3, LetterParen);
    assert SplitFrom(s, 3, LetterParen) == "2" + SplitFrom(s, 4, LetterParen);
    assert SplitFrom(s, 4, LetterParen) == "0" + SplitFrom(s, 5, LetterParen);
    assert SplitFrom(s, 5, LetterParen) == "2" + SplitFrom(s, 6, LetterParen);
    assert SplitFrom(s, 6, LetterParen) == "5" + SplitFrom(s, 7, LetterParen);
    assert SplitFrom(s, 7, LetterParen) == " " + SplitFrom(s, 8, LetterParen);
  }

  lemma {:induction false} AgainLetterParenPart1(s: string)
    requires AgainText0(s)
    ensures SplitFrom(s, 8, LetterParen) == "- Aug202" + SplitFrom(s, 16, LetterParen)
  {
    assert SplitFrom(s, 8, LetterParen) == "-" + SplitFrom(s, 9, LetterParen);
    assert SplitFrom(s, 9, LetterParen) == " " + SplitFrom(s, 10, LetterParen);
    assert SplitFrom(s, 10, LetterParen) == "A" + SplitFrom(s, 11, LetterParen);
    assert SplitFrom(s, 11, LetterParen) == "u" + SplitFrom(s, 12, LetterParen);
    assert SplitFrom(s, 12, LetterParen) == "g" + SplitFrom(s, 13, LetterParen);
    assert SplitFrom(s, 13, LetterParen) == "2" + SplitFrom(s, 14, LetterParen);
    assert SplitFrom(s, 14, LetterParen) == "0" + SplitFrom(s, 15, LetterParen);
    assert SplitFrom(s, 15, LetterParen) == "2" + SplitFrom(s, 16, LetterParen);
  }

  lemma {:induction false} AgainLetterParenPart2(s: string)
    requires AgainText0(s)
    ensures SplitFrom(s, 16, LetterParen) == "5" + SplitFrom(s, 17, LetterParen)
  {
    assert SplitFrom(s, 16, LetterParen) == "5" + SplitFrom(s, 17, LetterParen);
  }

  lemma {:induction false} AgainLetterParen(s: string)
    requires AgainText0(s)
    ensures AgainText0(SplitPass(s, LetterParen))
  {
    AgainLetterParenPart0(s);
    AgainLetterParenPart1(s);
    AgainLetterParenPart2(s);
    assert SplitFrom(s, 17, LetterParen) == [];
  }

  lemma {:induction false} AgainParenLetterPart0(s: string)
    requires AgainText0(s)
    ensures SplitFrom(s, 0, ParenLetter) == "May2025 " + SplitFrom(s, 8, ParenLetter)
  {
    assert SplitFrom(s, 0, ParenLetter) == "M" + SplitFrom(s, 1, ParenLetter);
    assert SplitFrom(s, 1, ParenLetter) == "a" + SplitFrom(s, 2, ParenLetter);
    assert SplitFrom(s, 2, ParenLetter) == "y" + SplitFrom(s, 3, ParenLetter);
    assert SplitFrom(s, 3, ParenLetter) == "2" + SplitFrom(s, 4, ParenLetter);
    assert SplitFrom(s, 4, ParenLetter) == "0" + SplitFrom(s, 5, ParenLetter);
    assert SplitFrom(s, 5, ParenLetter) == "2" + SplitFrom(s, 6, ParenLetter);
    assert SplitFrom(s, 6, ParenLetter) == "5" + SplitFrom(s, 7, ParenLetter);
    assert SplitFrom(s, 7, ParenLetter) == " " + SplitFrom(s, 8, ParenLetter);
  }

  lemma {:induction false} AgainParenLetterPart1(s: string)
    requires AgainText0(s)
    ensures SplitFrom(s, 8, ParenLetter) == "- Aug202" + SplitFrom(s, 16, ParenLetter)
  {
    assert SplitFrom(s, 8, ParenLetter) == "-" + SplitFrom(s, 9, ParenLetter);
    assert SplitFrom(s, 9, ParenLetter) == " " + SplitFrom(s, 10, ParenLetter);
    assert SplitFrom(s, 10, ParenLetter) == "A" + SplitFrom(s, 11, ParenLetter);
    assert SplitFrom(s, 11, ParenLetter) == "u" + SplitFrom(s, 12, ParenLetter);
    assert SplitFrom(s, 12, ParenLetter) == "g" + SplitFrom(s, 13, ParenLetter);
    assert SplitFrom(s, 13, ParenLetter) == "2" + SplitFrom(s, 14, ParenLetter);
    assert SplitFrom(s, 14, ParenLetter) == "0" + SplitFrom(s, 15, ParenLetter);
    assert SplitFrom(s, 15, ParenLetter) == "2" + SplitFrom(s, 16, ParenLetter);
  }

  lemma {:induction false} AgainParenLetterPart2(s: string)
    requires AgainText0(s)
    ensures SplitFrom(s, 16, ParenLetter) == "5" + SplitFrom(s, 17, ParenLetter)
  {
    assert SplitFrom(s, 16, ParenLetter) == "5" + SplitFrom(s, 17, ParenLetter);
  }

  lemma {:induction false} AgainParenLetter(s: string)
    requires AgainText0(s)
    ensures AgainText0(SplitPass(s, ParenLetter))
  {
    AgainParenLetterPart0(s);
    AgainParenLetterPart1(s);
    AgainParenLetterPart2(s);
    assert SplitFrom(s, 17, ParenLetter) == [];
  }

  lemma {:induction false} AgainLowerUpperPart0(s: string)
    requires AgainText0(s)
    ensures SplitFrom(s, 0, LowerUpper) == "May2025 " + SplitFrom(s, 8, LowerUpper)
  {
    assert SplitFrom(s, 0, LowerUpper) == "M" + SplitFrom(s, 1, LowerUpper);
    assert SplitFrom(s, 1, LowerUpper) == "a" + SplitFrom(s, 2, LowerUpper);
    assert SplitFrom(s, 2, LowerUpper) == "y" + SplitFrom(s, 3, LowerUpper);
    assert SplitFrom(s, 3, LowerUpper) == "2" + SplitFrom(s, 4, LowerUpper);
    assert SplitFrom(s, 4, LowerUpper) == "0" + SplitFrom(s, 5, LowerUpper);
    assert SplitFrom(s, 5, LowerUpper) == "2" + SplitFrom(s, 6, LowerUpper);
    assert SplitFrom(s, 6, LowerUpper) == "5" + SplitFrom(s, 7, LowerUpper);
    assert SplitFrom(s, 7, LowerUpper) == " " + SplitFrom(s, 8, LowerUpper);
  }

  lemma {:induction false} AgainLowerUpperPart1(s: string)
    requires AgainText0(s)
    ensures SplitFrom(s, 8, LowerUpper) == "- Aug202" + SplitFrom(s, 16, LowerUpper)
  {
    assert SplitFrom(s, 8, LowerUpper) == "-" + SplitFrom(s, 9, LowerUpper);
    assert SplitFrom(s, 9, LowerUpper) == " " + SplitFrom(s, 10, LowerUpper);
    assert SplitFrom(s, 10, LowerUpper) == "A" + SplitFrom(s, 11, LowerUpper);
    assert SplitFrom(s, 11, LowerUpper) == "u" + SplitFrom(s, 12, LowerUpper);
    assert SplitFrom(s, 12, LowerUpper) == "g" + SplitFrom(s, 13, LowerUpper);
    assert SplitFrom(s, 13, LowerUpper) == "2" + SplitFrom(s, 14, LowerUpper);
    assert SplitFrom(s, 14, LowerUpper) == "0" + SplitFrom(s, 15, LowerUpper);
    assert SplitFrom(s, 15, LowerUpper) == "2" + SplitFrom(s, 16, LowerUpper);
  }

  lemma {:induction false} AgainLowerUpperPart2(s: string)
    requires AgainText0(s)
    ensures SplitFrom(s, 16, LowerUpper) == "5" + SplitFrom(s, 17, LowerUpper)
  {
    assert SplitFrom(s, 16, LowerUpper) == "5" + SplitFrom(s, 17, LowerUpper);
  }

  lemma {:induction false} AgainLowerUpper(s: string)
    requires AgainText0(s)
    ensures AgainText0(SplitPass(s, LowerUpper))
  {
    AgainLowerUpperPart0(s);
    AgainLowerUpperPart1(s);
    AgainLowerUpperPart2(s);
    assert SplitFrom(s, 17, LowerUpper) == [];
  }

  lemma {:induction false} AgainSpacesPart0(s: string)
    requires AgainText0(s)
    ensures SqueezeFrom(s, 0, ' ', 2) == "May" + SqueezeFrom(s, 3, ' ', 2)
  {
    assert SqueezeFrom(s, 0, ' ', 2) == "M" + SqueezeFrom(s, 1, ' ', 2);
    assert SqueezeFrom(s, 1, ' ', 2) == "a" + SqueezeFrom(s, 2, ' ', 2);
    assert SqueezeFrom(s, 2, ' ', 2) == "y" + SqueezeFrom(s, 3, ' ', 2);
  }

  lemma {:induction false} AgainSpacesPart1(s: string)
    requires AgainText0(s)
    ensures SqueezeFrom(s, 3, ' ', 2) == "202" + SqueezeFrom(s, 6, ' ', 2)
  {
    assert SqueezeFrom(s, 3, ' ', 2) == "2" + SqueezeFrom(s, 4, ' ', 2);
    assert SqueezeFrom(s, 4, ' ', 2) == "0" + SqueezeFrom(s, 5, ' ', 2);
    assert SqueezeFrom(s, 5, ' ', 2) == "2" + SqueezeFrom(s, 6, ' ', 2);
  }

  lemma {:induction false} AgainSpacesPart2(s: string)
    requires AgainText0(s)
    ensures SqueezeFrom(s, 6, ' ', 2) == "5 -" + SqueezeFrom(s, 9, ' ', 2)
  {
    assert SqueezeFrom(s, 6, ' ', 2) == "5" + SqueezeFrom(s, 7, ' ', 2);
    assert SqueezeFrom(s, 7, ' ', 2) == " " + SqueezeFrom(s, 8, ' ', 2);
    assert SqueezeFrom(s, 8, ' ', 2) == "-" + SqueezeFrom(s, 9, ' ', 2);
  }

  lemma {:induction false} AgainSpacesPart3(s: string)
    requires AgainText0(s)
    ensures SqueezeFrom(s, 9, ' ', 2) == " Au" + SqueezeFrom(s, 12, ' ', 2)
  {
    assert SqueezeFrom(s, 9, ' ', 2) == " " + SqueezeFrom(s, 10, ' ', 2);
    assert SqueezeFrom(s, 10, ' ', 2) == "A" + SqueezeFrom(s, 11, ' ', 2);
    assert SqueezeFrom(s, 11, ' ', 2) == "u" + SqueezeFrom(s, 12, ' ', 2);
  }

  lemma {:induction false} AgainSpacesPart4(s: string)
    requires AgainText0(s)
    ensures SqueezeFrom(s, 12, ' ', 2) == "g20" + SqueezeFrom(s, 15, ' ', 2)
  {
    assert SqueezeFrom(s, 12, ' ', 2) == "g" + SqueezeFrom(s, 13, ' ', 2);
    assert SqueezeFrom(s, 13, ' ', 2) == "2" + SqueezeFrom(s, 14, ' ', 2);
    assert SqueezeFrom(s, 14, ' ', 2) == "0" + SqueezeFrom(s, 15, ' ', 2);
  }

  lemma {:induction false} AgainSpacesPart5(s: string)
    requires AgainText0(s)
    ensures SqueezeFrom(s, 15, ' ', 2) == "25" + SqueezeFrom(s, 17, ' ', 2)
  {
    assert SqueezeFrom(s, 15, ' ', 2) == "2" + SqueezeFrom(s, 16, ' ', 2);
    assert SqueezeFrom(s, 16, ' ', 2) == "5" + SqueezeFrom(s, 17, ' ', 2);
  }

  lemma {:induction false} AgainSpaces(s: string)
    requires AgainText0(s)
    ensures AgainText0(Squeeze(s, ' ', 2))
  {
    AgainSpacesPart0(s);
    AgainSpacesPart1(s);
    AgainSpacesPart2(s);
    AgainSpacesPart3(s);
    AgainSpacesPart4(s);
    AgainSpacesPart5(s);
    assert SqueezeFrom(s, 17, ' ', 2) == [];
  }

  lemma {:induction false} AgainNewlinesPart0(s: string)
    requires AgainText0(s)
    ensures SqueezeFrom(s, 0, '\n', 3) == "May" + SqueezeFrom(s, 3, '\n', 3)
  {
    assert SqueezeFrom(s, 0, '\n', 3) == "M" + SqueezeFrom(s, 1, '\n', 3);
    assert SqueezeFrom(s, 1, '\n', 3) == "a" + SqueezeFrom(s, 2, '\n', 3);
    assert SqueezeFrom(s, 2, '\n', 3) == "y" + SqueezeFrom(s, 3, '\n', 3);
  }

  lemma {:induction false} AgainNewlinesPart1(s: string)
    requires AgainText0(s)
    ensures SqueezeFrom(s, 3, '\n', 3) == "202" + SqueezeFrom(s, 6, '\n', 3)
  {
    assert SqueezeFrom(s, 3, '\n', 3) == "2" + SqueezeFrom(s, 4, '\n', 3);
    assert SqueezeFrom(s, 4, '\n', 3) == "0" + SqueezeFrom(s, 5, '\n', 3);
    assert SqueezeFrom(s, 5, '\n', 3) == "2" + SqueezeFrom(s, 6, '\n', 3);
  }

  lemma {:induction false} AgainNewlinesPart2(s: string)
    requires AgainText0(s)
    ensures SqueezeFrom(s, 6, '\n', 3) == "5 -" + SqueezeFrom(s, 9, '\n', 3)
  {
    assert SqueezeFrom(s, 6, '\n', 3) == "5" + SqueezeFrom(s, 7, '\n', 3);
    assert SqueezeFrom(s, 7, '\n', 3) == " " + SqueezeFrom(s, 8, '\n', 3);
    assert SqueezeFrom(s, 8, '\n', 3) == "-" + SqueezeFrom(s, 9, '\n', 3);
  }

  lemma {:induction false} AgainNewlinesPart3(s: string)
    requires AgainText0(s)
    ensures SqueezeFrom(s, 9, '\n', 3) == " Au" + SqueezeFrom(s, 12, '\n', 3)
  {
    assert SqueezeFrom(s, 9, '\n', 3) == " " + SqueezeFrom(s, 10, '\n', 3);
    assert SqueezeFrom(s, 10, '\n', 3) == "A" + SqueezeFrom(s, 11, '\n', 3);
    assert SqueezeFrom(s, 11, '\n', 3) == "u" + SqueezeFrom(s, 12, '\n', 3);
  }

  lemma {:induction false} AgainNewlinesPart4(s: string)
    requires AgainText0(s)
    ensures SqueezeFrom(s, 12, '\n', 3) == "g20" + SqueezeFrom(s, 15, '\n', 3)
  {
    assert SqueezeFrom(s, 12, '\n', 3) == "g" + SqueezeFrom(s, 13, '\n', 3);
    assert SqueezeFrom(s, 13, '\n', 3) == "2" + SqueezeFrom(s, 14, '\n', 3);
    assert SqueezeFrom(s, 14, '\n', 3) == "0" + SqueezeFrom(s, 15, '\n', 3);
  }

  lemma {:induction false} AgainNewlinesPart5(s: string)
    requires AgainText0(s)
    ensures SqueezeFrom(s, 15, '\n', 3) == "25" + SqueezeFrom(s, 17, '\n', 3)
  {
    assert SqueezeFrom(s, 15, '\n', 3) == "2" + SqueezeFrom(s, 16, '\n', 3);
    assert SqueezeFrom(s, 16, '\n', 3) == "5" + SqueezeFrom(s, 17, '\n', 3);
  }

  lemma {:induction false} AgainNewlines(s: string)
    requires AgainText0(s)
    ensures AgainText0(Squeeze(s, '\n', 3))
  {
    AgainNewlinesPart0(s);
    AgainNewlinesPart1(s);
    AgainNewlinesPart2(s);
    AgainNewlinesPart3(s);
    AgainNewlinesPart4(s);
    AgainNewlinesPart5(s);
    assert SqueezeFrom(s, 17, '\n', 3) == [];
  }

  lemma {:induction false} AgainStrip(s: string)
    requires AgainText0(s)
    ensures AgainText0(Strip(s))
  {
    assert LeadingSpace(s) == 0;
    assert TrailingSpace(s) == 0;
    assert s[0..][..|s|] == s;
  }

  /** Cleaning is not idempotent: cleaning the result of line 207 again glues the month to the year. */
  lemma CleanTwice(text: string)
    requires MonthRangeText3(text)
    ensures AgainText0(Cleaned(text))
  {
    AgainCollapsed(text);
    var t0 := CollapseTimes(text, CollapseRounds);
    AgainDotUpper(t0);
    var t1 := SplitPass(t0, DotUpper);
    AgainCommaLetter(t1);
    var t2 := SplitPass(t1, CommaLetter);
    AgainLetterParen(t2);
    var t3 := SplitPass(t2, LetterParen);
    AgainParenLetter(t3);
    var t4 := SplitPass(t3, ParenLetter);
    AgainLowerUpper(t4);
    var t5 := SplitPass(t4, LowerUpper);
    AgainSpaces(t5);
    var t6 := Squeeze(t5, ' ', 2);
    AgainNewlines(t6);
    var t7 := Squeeze(t6, '\n', 3);
    AgainStrip(t7);
    assert Cleaned(text) == Strip(t7);
  }
}
