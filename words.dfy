/** `numberToIndianWords` (src/App.tsx): an amount in rupees and paise
    written out in words with the Indian grouping (crore, lakh, thousand,
    hundred). Every phrase the source builds is modelled as the list of its
    words joined by single spaces. */
module IndianWords {
  import opened Strings

  /** The table of words for 0..19 (0 has no word). */
  const Ones: seq<string> := [
    "", "One", "Two", "Three", "Four", "Five", "Six", "Seven", "Eight", "Nine", "Ten",
    "Eleven", "Twelve", "Thirteen", "Fourteen", "Fifteen", "Sixteen", "Seventeen",
    "Eighteen", "Nineteen"]

  /** The table of words for the multiples of ten (0 and 10 have none here). */
  const Tens: seq<string> := [
    "", "", "Twenty", "Thirty", "Forty", "Fifty", "Sixty", "Seventy", "Eighty", "Ninety"]

  /** The words of 0..99: none for 0, one table word below 20, otherwise
      the tens word and, when the last digit is not 0, its word. */
  function TwoDigitWords(n: nat): seq<string>
    requires n < 100
  {
    if n == 0 then []
    else if n < 20 then [Ones[n]]
    else [Tens[n / 10]] + (if n % 10 != 0 then [Ones[n % 10]] else [])
  }

  /** The words of a group of up to three digits; the hundreds digit may
      be up to 19 (a crore group below 2000). */
  function ThreeDigitWords(n: nat): seq<string>
    requires n < 2000
  {
    (if n / 100 != 0 then [Ones[n / 100], "Hundred"] else []) + TwoDigitWords(n % 100)
  }

  /** The words of one named group: nothing when the group is 0. */
  function GroupWords(g: nat, unit: string): seq<string>
    requires g < 2000
  {
    if g != 0 then ThreeDigitWords(g) + [unit] else []
  }

  /** An amount split into crore (10^7), lakh (10^5), thousand and the rest. */
  datatype Groups = Groups(crore: nat, lakh: nat, thousand: nat, rest: nat)

  /** The grouping `convert` computes. */
  function Split(n: nat): (g: Groups)
    ensures n == g.crore * 10000000 + g.lakh * 100000 + g.thousand * 1000 + g.rest
    ensures g.lakh < 100 && g.thousand < 100 && g.rest < 1000
  {
    var belowCrore := n % 10000000;
    var belowLakh := belowCrore % 100000;
    Groups(n / 10000000, belowCrore / 100000, belowLakh / 1000, belowLakh % 1000)
  }

  /** The grouping is the only one with these bounds. */
  lemma SplitUnique(n: nat, g: Groups)
    requires n == g.crore * 10000000 + g.lakh * 100000 + g.thousand * 1000 + g.rest
    requires g.lakh < 100 && g.thousand < 100 && g.rest < 1000
    ensures Split(n) == g
  {
    var s := Split(n);
    assert g.lakh * 100000 + g.thousand * 1000 + g.rest < 10000000;
    assert s.crore == g.crore;
    assert s.thousand * 1000 + s.rest == g.thousand * 1000 + g.rest;
  }

  /** The words of a whole number of rupees: "Zero" for 0. */
  function NumberWords(n: nat): seq<string>
    requires n < 20000000000
  {
    if n == 0 then ["Zero"]
    else
      var g := Split(n);
      GroupWords(g.crore, "Crore") + GroupWords(g.lakh, "Lakh")
      + GroupWords(g.thousand, "Thousand") + ThreeDigitWords(g.rest)
  }

  /** The words of the whole result. */
  function AmountWords(rupees: nat, paise: nat): seq<string>
    requires rupees < 20000000000 && paise < 100
  {
    (if rupees == 0 then ["Zero", "Rupees"] else ["Rupees"] + NumberWords(rupees))
    + (if paise > 0 then ["and"] + TwoDigitWords(paise) + ["Paise"] else [])
    + ["Only"]
  }

  predicate NonEmptyWords(ws: seq<string>)
  {
    forall i :: 0 <= i < |ws| ==> ws[i] != ""
  }

  lemma TwoDigitWordsShape(n: nat)
    requires n < 100
    ensures NonEmptyWords(TwoDigitWords(n))
    ensures TwoDigitWords(n) == [] <==> n == 0
  {
  }

  lemma ThreeDigitWordsShape(n: nat)
    requires n < 2000
    ensures NonEmptyWords(ThreeDigitWords(n))
    ensures ThreeDigitWords(n) == [] <==> n == 0
  {
    TwoDigitWordsShape(n % 100);
  }

  /** `twoDigits`: the table word below 20, otherwise the tens word followed,
      after a space, by the word of a nonzero last digit. */
  function TwoDigits(n: nat): (r: string)
    requires n < 100
    ensures r == Join(TwoDigitWords(n), " ")
  {
    if n < 20 then Ones[n]
    else Tens[n / 10] + (if n % 10 != 0 then " " + Ones[n % 10] else "")
  }

  lemma JoinHundred(hundred: nat, rest: nat)
    requires hundred < 20 && rest < 100
    ensures hundred != 0 && rest != 0 ==>
      Join([Ones[hundred], "Hundred"] + TwoDigitWords(rest), " ")
      == Ones[hundred] + " Hundred" + " " + Join(TwoDigitWords(rest), " ")
  {
    if hundred != 0 && rest != 0 {
      JoinAppend([Ones[hundred], "Hundred"], TwoDigitWords(rest), " ");
    }
  }

  /** `threeDigits`: "<digit> Hundred" for a nonzero hundreds digit, then
      the last two digits, with a space between when both are present. */
  function ThreeDigits(n: nat): (r: string)
    requires n < 2000
    ensures r == Join(ThreeDigitWords(n), " ")
  {
    var hundred := n / 100;
    var rest := n % 100;
    TwoDigitWordsShape(rest);
    JoinHundred(hundred, rest);
    (if hundred != 0 then Ones[hundred] + " Hundred" else "")
    + (if rest != 0 then (if hundred != 0 then " " else "") + TwoDigits(rest) else "")
  }

  /** What `convert` has built so far: the words of `done` joined by
      spaces (empty exactly when no word is there yet). */
  predicate Built(done: seq<string>, words: string)
  {
    words == Join(done, " ") && (words == "" <==> done == [])
  }

  /** Appending one more phrase to `words`, with a space only when `words`
      already holds something, continues the joined list of words. */
  lemma Extend(done: seq<string>, words: string, part: seq<string>, phrase: string)
    requires Built(done, words)
    requires part != [] && phrase == Join(part, " ") && phrase != ""
    ensures Built(done + part, words + ((if words != "" then " " else "") + phrase))
  {
    var sep := if words != "" then " " else "";
    if done == [] {
      assert done + part == part;
    } else {
      JoinAppend(done, part, " ");
    }
    assert (words + sep) + phrase == words + (sep + phrase);
  }

  /** The phrase of a nonzero group: its three-digit words, a space and the unit. */
  lemma GroupPhrase(g: nat, unit: string, tail: string)
    requires 0 < g < 2000 && tail == " " + unit
    ensures Join(GroupWords(g, unit), " ") == ThreeDigits(g) + tail
    ensures GroupWords(g, unit) != [] && ThreeDigits(g) + tail != ""
  {
    var w := ThreeDigits(g);
    ThreeDigitWordsShape(g);
    JoinAppend(ThreeDigitWords(g), [unit], " ");
    UnitAfter(w, unit, tail);
  }

  /** A space and the unit after some words. */
  lemma UnitAfter(w: string, unit: string, tail: string)
    requires tail == " " + unit
    ensures w + " " + unit == w + tail && w + tail != ""
  {
    assert |w + tail| > 0;
  }

  /* Small facts about literal words (UnitTails, PaiseLiterals, the
     *IsNotNumeral lemmas, ExampleText, JoinSix) are each proved in a
     lemma of their own and called where needed: stated inside a larger
     proof they make the verifier expand long literals and both word tables
     there, which costs far more than the fact itself. */

  lemma UnitTails()
    ensures " Crore" == " " + "Crore" && " Lakh" == " " + "Lakh" && " Thousand" == " " + "Thousand"
  {
  }

  /** One group step of `convert`: a nonzero group's phrase is appended
      (after a space when words are already there); a zero group adds nothing. */
  lemma GroupStep(done: seq<string>, before: string, after: string, g: nat, unit: string, tail: string)
    requires Built(done, before)
    requires g < 2000
    requires tail == " " + unit
    requires after == if g != 0 then before + ((if before != "" then " " else "") + (ThreeDigits(g) + tail))
                      else before
    ensures Built(done + GroupWords(g, unit), after)
  {
    if g != 0 {
      GroupPhrase(g, unit, tail);
      Extend(done, before, GroupWords(g, unit), ThreeDigits(g) + tail);
    } else {
      assert done + GroupWords(g, unit) == done;
    }
  }

  /** The last step of `convert`: the phrase of a nonzero rest is appended. */
  lemma RestStep(done: seq<string>, before: string, after: string, rest: nat)
    requires Built(done, before)
    requires rest < 1000
    requires after == if rest != 0 then before + ((if before != "" then " " else "") + ThreeDigits(rest))
                      else before
    ensures Built(done + ThreeDigitWords(rest), after)
  {
    ThreeDigitWordsShape(rest);
    if rest != 0 {
      JoinEmpty(ThreeDigitWords(rest), " ");
      Extend(done, before, ThreeDigitWords(rest), ThreeDigits(rest));
    } else {
      assert done + ThreeDigitWords(rest) == done;
    }
  }

  lemma NumberWordsOfGroups(n: nat, g: Groups)
    requires 0 < n < 20000000000 && g == Split(n)
    ensures NumberWords(n) == GroupWords(g.crore, "Crore") + GroupWords(g.lakh, "Lakh")
                              + GroupWords(g.thousand, "Thousand") + ThreeDigitWords(g.rest)
  {
  }

  /** `convert`: the amount is split into crore, lakh, thousand and the
      rest, and the phrase of each nonzero group is appended in turn. */
  method Convert(n: nat) returns (words: string)
    requires n < 20000000000
    ensures words == Join(NumberWords(n), " ")
  {
    if n == 0 {
      return "Zero";
    }
    words := "";
    var m := n;
    var crore := m / 10000000;
    m := m % 10000000;
    var lakh := m / 100000;
    m := m % 100000;
    var thousand := m / 1000;
    m := m % 1000;
    var rest := m;
    ghost var g := Split(n);
    assert g == Groups(crore, lakh, thousand, rest);
    assert crore < 2000 && lakh < 100 && thousand < 100 && rest < 1000;

    UnitTails();
    ghost var done: seq<string> := [];
    ghost var before := words;
    if crore != 0 {
      words := words + (ThreeDigits(crore) + " Crore");
    }
    GroupStep(done, before, words, crore, "Crore", " Crore");
    assert done + GroupWords(crore, "Crore") == GroupWords(crore, "Crore");
    done, before := GroupWords(crore, "Crore"), words;
    if lakh != 0 {
      words := words + ((if words != "" then " " else "") + (ThreeDigits(lakh) + " Lakh"));
    }
    GroupStep(done, before, words, lakh, "Lakh", " Lakh");
    done, before := done + GroupWords(lakh, "Lakh"), words;
    if thousand != 0 {
      words := words + ((if words != "" then " " else "") + (ThreeDigits(thousand) + " Thousand"));
    }
    GroupStep(done, before, words, thousand, "Thousand", " Thousand");
    done, before := done + GroupWords(thousand, "Thousand"), words;
    if rest != 0 {
      words := words + ((if words != "" then " " else "") + ThreeDigits(rest));
    }
    RestStep(done, before, words, rest);
    done := done + ThreeDigitWords(rest);
    NumberWordsOfGroups(n, g);
  }

  lemma ZeroRupeesPhrase()
    ensures "Zero Rupees" == Join(["Zero", "Rupees"], " ")
  {
    assert Join(["Zero", "Rupees"], " ") == "Zero" + " " + "Rupees";
  }

  /** A nonzero amount has words. */
  lemma NumberWordsNonEmpty(n: nat)
    requires 0 < n < 20000000000
    ensures NumberWords(n) != []
  {
    var g := Split(n);
    NumberWordsOfGroups(n, g);
    ThreeDigitWordsShape(g.rest);
    if g.rest == 0 {
      ThreeDigitWordsShape(g.crore);
      ThreeDigitWordsShape(g.lakh);
      ThreeDigitWordsShape(g.thousand);
    }
  }

  lemma RupeesPhrase(rupees: nat, w: string)
    requires 0 < rupees < 20000000000 && w == Join(NumberWords(rupees), " ")
    ensures "Rupees " + w == Join(["Rupees"] + NumberWords(rupees), " ")
  {
    NumberWordsNonEmpty(rupees);
    JoinAppend(["Rupees"], NumberWords(rupees), " ");
    assert "Rupees " == "Rupees" + " ";
  }

  /** A list of words between two single words joins with a space on each side. */
  lemma Surround(left: string, mid: seq<string>, right: string)
    requires mid != []
    ensures Join([left] + mid + [right], " ") == left + " " + Join(mid, " ") + " " + right
  {
    JoinAppend([left], mid, " ");
    JoinAppend([left] + mid, [right], " ");
  }

  lemma PaiseLiterals()
    ensures " and " == " " + "and" + " " && " Paise" == " " + "Paise"
  {
  }

  /** Five pieces of text regrouped: concatenation is associative. */
  lemma Regroup(w: string, sp: string, a: string, t: string, p: string)
    ensures w + sp + (a + sp + t + sp + p) == w + (sp + a + sp) + t + (sp + p)
  {
  }

  lemma PaisePhrase(done: seq<string>, words: string, paise: nat)
    requires done != [] && words == Join(done, " ") && 0 < paise < 100
    ensures Join(done + (["and"] + TwoDigitWords(paise) + ["Paise"]), " ")
            == words + " and " + TwoDigits(paise) + " Paise"
  {
    var t := TwoDigits(paise);
    var mid := TwoDigitWords(paise);
    TwoDigitWordsShape(paise);
    Surround("and", mid, "Paise");
    JoinAppend(done, ["and"] + mid + ["Paise"], " ");
    Regroup(words, " ", "and", t, "Paise");
    PaiseLiterals();
  }

  lemma OnlyPhrase(done: seq<string>, words: string)
    requires done != [] && words == Join(done, " ")
    ensures Join(done + ["Only"], " ") == words + " Only"
  {
    JoinAppend(done, ["Only"], " ");
    assert Join(["Only"], " ") == "Only";
  }

  /** `numberToIndianWords` for an amount already split into whole rupees
      and paise: "Zero Rupees" or "Rupees <words>", " and <words> Paise"
      when there are paise, and " Only" at the end. */
  method NumberToIndianWords(rupees: nat, paise: nat) returns (result: string)
    requires rupees < 20000000000 && paise < 100
    ensures result == Join(AmountWords(rupees, paise), " ")
    ensures |result| >= 5 && result[|result| - 5..] == " Only"
  {
    ghost var head := if rupees == 0 then ["Zero", "Rupees"] else ["Rupees"] + NumberWords(rupees);
    ghost var paiseWords := if paise > 0 then ["and"] + TwoDigitWords(paise) + ["Paise"] else [];
    assert AmountWords(rupees, paise) == head + paiseWords + ["Only"];
    if rupees == 0 {
      result := "Zero Rupees";
      ZeroRupeesPhrase();
    } else {
      var w := Convert(rupees);
      result := "Rupees " + w;
      RupeesPhrase(rupees, w);
    }
    assert result == Join(head, " ") && head != [];
    if paise > 0 {
      PaisePhrase(head, result, paise);
      result := result + " and " + TwoDigits(paise) + " Paise";
    } else {
      assert head + paiseWords == head;
    }
    assert result == Join(head + paiseWords, " ");
    OnlyPhrase(head + paiseWords, result);
    result := result + " Only";
  }

  /** The words the number part can use. */
  predicate NumeralWord(w: string)
  {
    w in Ones || w in Tens || w == "Hundred"
  }

  predicate UnitWord(w: string)
  {
    w == "Crore" || w == "Lakh" || w == "Thousand"
  }

  /** No group unit and not "Zero" is a table word. */
  lemma UnitsAreNotNumerals()
    ensures !NumeralWord("Crore") && !NumeralWord("Lakh") && !NumeralWord("Thousand")
    ensures !NumeralWord("Zero")
  {
    CroreIsNotNumeral();
    LakhIsNotNumeral();
    ThousandIsNotNumeral();
    ZeroIsNotNumeral();
  }

  /* One word at a time: each is checked against both tables (see the
     note above UnitTails). */
  lemma CroreIsNotNumeral() ensures !NumeralWord("Crore") { }
  lemma LakhIsNotNumeral() ensures !NumeralWord("Lakh") { }
  lemma ThousandIsNotNumeral() ensures !NumeralWord("Thousand") { }
  lemma ZeroIsNotNumeral() ensures !NumeralWord("Zero") { }

  /** None of the words around the number is a table word. */
  lemma FrameWordsAreNotNumerals()
    ensures !NumeralWord("Paise") && !NumeralWord("and")
  {
    PaiseIsNotNumeral();
    AndIsNotNumeral();
  }

  lemma PaiseIsNotNumeral() ensures !NumeralWord("Paise") { }
  lemma AndIsNotNumeral() ensures !NumeralWord("and") { }

  lemma ThreeDigitVocabulary(n: nat, w: string)
    requires n < 2000 && !NumeralWord(w)
    ensures w !in ThreeDigitWords(n)
  {
  }

  /** A group's phrase holds its unit exactly when the group is nonzero,
      and no other word that is not a table word. */
  lemma GroupVocabulary(g: nat, unit: string, w: string)
    requires g < 2000 && !NumeralWord(w)
    ensures w in GroupWords(g, unit) <==> g != 0 && w == unit
  {
    ThreeDigitVocabulary(g, w);
  }

  /** A word that is neither a table word, a unit nor "Zero" never appears
      in the words of an amount. */
  lemma NumberVocabulary(n: nat, w: string)
    requires n < 20000000000
    requires !NumeralWord(w) && !UnitWord(w) && w != "Zero"
    ensures w !in NumberWords(n)
  {
    if n != 0 {
      var g := Split(n);
      NumberWordsOfGroups(n, g);
      GroupVocabulary(g.crore, "Crore", w);
      GroupVocabulary(g.lakh, "Lakh", w);
      GroupVocabulary(g.thousand, "Thousand", w);
      ThreeDigitVocabulary(g.rest, w);
    }
  }

  /** A unit word is in the words of an amount exactly when its group of
      the split is nonzero. */
  lemma UnitPresent(n: nat, g: Groups, unit: string, group: nat)
    requires 0 < n < 20000000000 && g == Split(n) && !NumeralWord(unit)
    requires (unit == "Crore" && group == g.crore) || (unit == "Lakh" && group == g.lakh)
             || (unit == "Thousand" && group == g.thousand)
    ensures unit in NumberWords(n) <==> group != 0
  {
    NumberWordsOfGroups(n, g);
    GroupVocabulary(g.crore, "Crore", unit);
    GroupVocabulary(g.lakh, "Lakh", unit);
    GroupVocabulary(g.thousand, "Thousand", unit);
    ThreeDigitVocabulary(g.rest, unit);
  }

  /** A group word appears exactly when its group is nonzero: "Crore" for
      the crores, "Lakh" for the lakhs, "Thousand" for the thousands. */
  lemma GroupWordsPresent(n: nat)
    requires 0 < n < 20000000000
    ensures "Crore" in NumberWords(n) <==> Split(n).crore != 0
    ensures "Lakh" in NumberWords(n) <==> Split(n).lakh != 0
    ensures "Thousand" in NumberWords(n) <==> Split(n).thousand != 0
  {
    var g := Split(n);
    UnitsAreNotNumerals();
    UnitPresent(n, g, "Crore", g.crore);
    UnitPresent(n, g, "Lakh", g.lakh);
    UnitPresent(n, g, "Thousand", g.thousand);
  }

  /** 0 rupees and 0 paise is "Zero Rupees Only". */
  lemma ZeroAmount()
    ensures Join(AmountWords(0, 0), " ") == "Zero Rupees Only"
  {
    assert AmountWords(0, 0) == ["Zero", "Rupees", "Only"];
    assert Join(["Zero", "Rupees", "Only"], " ") == "Zero" + " " + ("Rupees" + " " + "Only");
  }

  /** The paise clause (" and <words> Paise") is there exactly when there
      are paise. */
  lemma PaiseClause(rupees: nat, paise: nat)
    requires rupees < 20000000000 && paise < 100
    ensures "Paise" in AmountWords(rupees, paise) <==> paise > 0
    ensures "and" in AmountWords(rupees, paise) <==> paise > 0
  {
    FrameWordsAreNotNumerals();
    NumberVocabulary(rupees, "Paise");
    NumberVocabulary(rupees, "and");
  }

  lemma JoinSix(a: string, b: string, c: string, d: string, e: string, f: string)
    ensures Join([a, b, c, d, e, f], " ") == a + " " + (b + " " + (c + " " + (d + " " + (e + " " + f))))
  {
    var ws := [a, b, c, d, e, f];
    assert ws[5..] == [f];
    assert ws[4..][1..] == ws[5..];
    assert Join(ws[4..], " ") == e + " " + f;
    assert ws[3..][1..] == ws[4..];
    assert Join(ws[3..], " ") == d + " " + (e + " " + f);
    assert ws[2..][1..] == ws[3..];
    assert Join(ws[2..], " ") == c + " " + (d + " " + (e + " " + f));
    assert ws[1..][1..] == ws[2..];
    assert Join(ws[1..], " ") == b + " " + (c + " " + (d + " " + (e + " " + f)));
  }

  lemma ExampleText()
    ensures "Rupees" + " " + ("Eleven" + " " + ("Lakh" + " " + ("Fifty" + " " + ("Thousand" + " " + "Only"))))
            == "Rupees Eleven Lakh Fifty Thousand Only"
  {
  }

  lemma ExampleJoin()
    ensures Join(["Rupees", "Eleven", "Lakh", "Fifty", "Thousand", "Only"], " ")
            == "Rupees Eleven Lakh Fifty Thousand Only"
  {
    JoinSix("Rupees", "Eleven", "Lakh", "Fifty", "Thousand", "Only");
    ExampleText();
  }

  /** The words of the groups of 11,50,000, one group at a time. */
  lemma ElevenLakhFiftyThousandParts()
    ensures GroupWords(0, "Crore") == [] && ThreeDigitWords(0) == []
    ensures GroupWords(11, "Lakh") == ["Eleven", "Lakh"]
    ensures GroupWords(50, "Thousand") == ["Fifty", "Thousand"]
  {
    assert ThreeDigitWords(11) == ["Eleven"] by {
      assert TwoDigitWords(11) == [Ones[11]];
    }
    assert ThreeDigitWords(50) == ["Fifty"] by {
      assert TwoDigitWords(50) == [Tens[5]];
    }
  }

  /** The groups of 11,50,000: eleven lakh and fifty thousand. */
  lemma ElevenLakhFiftyThousandGroups()
    ensures NumberWords(1150000) == ["Eleven", "Lakh", "Fifty", "Thousand"]
  {
    var g := Groups(0, 11, 50, 0);
    SplitUnique(1150000, g);
    NumberWordsOfGroups(1150000, g);
    ElevenLakhFiftyThousandParts();
    assert NumberWords(1150000) == [] + ["Eleven", "Lakh"] + ["Fifty", "Thousand"] + [];
  }

  /** The worked example: 11,50,000 rupees. */
  lemma ElevenLakhFiftyThousand()
    ensures Join(AmountWords(1150000, 0), " ") == "Rupees Eleven Lakh Fifty Thousand Only"
  {
    ElevenLakhFiftyThousandGroups();
    WholeRupees(1150000);
    Between("Rupees", "Eleven", "Lakh", "Fifty", "Thousand", "Only");
    ExampleJoin();
  }

  /** Four words between two more make a list of six. */
  lemma Between<T>(a: T, b: T, c: T, d: T, e: T, f: T)
    ensures [a] + [b, c, d, e] + [f] == [a, b, c, d, e, f]
  {
  }

  /** Without paise the words are "Rupees", the number's words and "Only". */
  lemma WholeRupees(rupees: nat)
    requires 0 < rupees < 20000000000
    ensures AmountWords(rupees, 0) == ["Rupees"] + NumberWords(rupees) + ["Only"]
  {
    assert ["Rupees"] + NumberWords(rupees) + [] == ["Rupees"] + NumberWords(rupees);
  }

  /* Reading the words back. A reader keeps a running total and the value of
     the group being read: a table word adds its value to the group,
     "Hundred" multiplies the group by 100, and a unit word moves the group,
     scaled, into the total. Every amount's words read back as the amount,
     so different amounts never get the same words. */

  datatype Tally = Tally(total: int, group: int)

  /** Where `w` first occurs in `table` (`|table|` when it does not). */
  function Position(w: string, table: seq<string>): (i: nat)
    ensures i <= |table| && (i < |table| ==> table[i] == w)
    ensures forall j :: 0 <= j < i ==> table[j] != w
  {
    if table == [] then 0 else if table[0] == w then 0 else 1 + Position(w, table[1..])
  }

  function WordValue(w: string): nat
  {
    if w in Ones then Position(w, Ones) else if w in Tens then 10 * Position(w, Tens) else 0
  }

  function Step(st: Tally, w: string): Tally
  {
    if w == "Hundred" then Tally(st.total, st.group * 100)
    else if w == "Crore" then Tally(st.total + st.group * 10000000, 0)
    else if w == "Lakh" then Tally(st.total + st.group * 100000, 0)
    else if w == "Thousand" then Tally(st.total + st.group * 1000, 0)
    else Tally(st.total, st.group + WordValue(w))
  }

  function Run(ws: seq<string>, st: Tally): Tally
  {
    if ws == [] then st else Run(ws[1..], Step(st, ws[0]))
  }

  /** The amount a list of words reads back as. */
  function WordsValue(ws: seq<string>): int
  {
    var t := Run(ws, Tally(0, 0)); t.total + t.group
  }

  lemma {:induction false} RunAppend(a: seq<string>, b: seq<string>, st: Tally)
    ensures Run(a + b, st) == Run(b, Run(a, st))
  {
    if a == [] {
      assert a + b == b;
    } else {
      assert (a + b)[0] == a[0];
      assert (a + b)[1..] == a[1..] + b;
      RunAppend(a[1..], b, Step(st, a[0]));
    }
  }

  lemma OnesDistinct()
    ensures forall i, j :: 0 <= i < j < |Ones| ==> Ones[i] != Ones[j]
  {
  }

  lemma TensDistinct()
    ensures forall i, j :: 1 <= i < j < |Tens| ==> Tens[i] != Tens[j]
    ensures forall i :: 2 <= i < |Tens| ==> Tens[i] !in Ones
  {
  }

  lemma HundredIsNotATableWord()
    ensures "Hundred" !in Ones && "Hundred" !in Tens
  {
  }

  /** The value of a table word read on its own. */
  lemma TableWordValue(w: string, v: nat, st: Tally)
    requires w in Ones || w in Tens
    requires WordValue(w) == v
    ensures Step(st, w) == Tally(st.total, st.group + v)
  {
    NotUnitNorHundred(w);
  }

  /** A table word is neither "Hundred" nor a unit word. */
  lemma NotUnitNorHundred(w: string)
    requires w in Ones || w in Tens
    ensures w != "Hundred" && !UnitWord(w)
  {
    UnitsAreNotNumerals();
    HundredIsNotATableWord();
  }

  lemma OnesValue(i: nat, st: Tally)
    requires 0 < i < 20
    ensures Step(st, Ones[i]) == Tally(st.total, st.group + i)
  {
    OnesDistinct();
    assert Ones[i] in Ones;
    assert Position(Ones[i], Ones) == i;
    TableWordValue(Ones[i], i, st);
  }

  lemma TensValue(i: nat, st: Tally)
    requires 2 <= i < 10
    ensures Step(st, Tens[i]) == Tally(st.total, st.group + 10 * i)
  {
    TensDistinct();
    assert Tens[i] in Tens;
    assert Position(Tens[i], Tens) == i;
    TableWordValue(Tens[i], 10 * i, st);
  }

  lemma RunOne(w: string, st: Tally)
    ensures Run([w], st) == Step(st, w)
  {
    assert [w][1..] == [];
  }

  lemma TwoDigitRun(n: nat, st: Tally)
    requires n < 100
    ensures Run(TwoDigitWords(n), st) == Tally(st.total, st.group + n)
  {
    if 0 < n < 20 {
      OnesValue(n, st);
      RunOne(Ones[n], st);
    } else if n >= 20 {
      var tens := n / 10;
      var ones := n % 10;
      TensValue(tens, st);
      RunOne(Tens[tens], st);
      var mid := Tally(st.total, st.group + 10 * tens);
      if ones != 0 {
        OnesValue(ones, mid);
        RunOne(Ones[ones], mid);
        RunAppend([Tens[tens]], [Ones[ones]], st);
      }
    }
  }

  /** "<digit> Hundred" reads as a hundred times the digit. */
  lemma HundredRun(h: nat, st: Tally)
    requires 0 < h < 20 && st.group == 0
    ensures Run([Ones[h], "Hundred"], st) == Tally(st.total, h * 100)
  {
    OnesValue(h, st);
    RunOne(Ones[h], st);
    RunOne("Hundred", Tally(st.total, h));
    RunAppend([Ones[h]], ["Hundred"], st);
    assert [Ones[h]] + ["Hundred"] == [Ones[h], "Hundred"];
  }

  lemma ThreeDigitRun(n: nat, st: Tally)
    requires n < 2000 && st.group == 0
    ensures Run(ThreeDigitWords(n), st) == Tally(st.total, n)
  {
    var hundred := n / 100;
    TwoDigitRun(n % 100, Tally(st.total, hundred * 100));
    if hundred != 0 {
      HundredRun(hundred, st);
      RunAppend([Ones[hundred], "Hundred"], TwoDigitWords(n % 100), st);
    } else {
      assert ThreeDigitWords(n) == TwoDigitWords(n % 100);
    }
  }

  lemma GroupRun(g: nat, unit: string, scale: int, st: Tally)
    requires g < 2000 && st.group == 0
    requires (unit == "Crore" && scale == 10000000) || (unit == "Lakh" && scale == 100000)
             || (unit == "Thousand" && scale == 1000)
    ensures Run(GroupWords(g, unit), st) == Tally(st.total + g * scale, 0)
  {
    if g != 0 {
      ThreeDigitRun(g, st);
      RunOne(unit, Tally(st.total, g));
      RunAppend(ThreeDigitWords(g), [unit], st);
    }
  }

  /** The words of every amount read back as that amount. */
  lemma NumberWordsValue(n: nat)
    requires n < 20000000000
    ensures WordsValue(NumberWords(n)) == n
  {
    if n == 0 {
      UnitsAreNotNumerals();
      RunOne("Zero", Tally(0, 0));
    } else {
      var g := Split(n);
      NumberWordsOfGroups(n, g);
      var a := GroupWords(g.crore, "Crore");
      var b := GroupWords(g.lakh, "Lakh");
      var c := GroupWords(g.thousand, "Thousand");
      var d := ThreeDigitWords(g.rest);
      var s0 := Tally(0, 0);
      GroupRun(g.crore, "Crore", 10000000, s0);
      var s1 := Run(a, s0);
      GroupRun(g.lakh, "Lakh", 100000, s1);
      var s2 := Run(b, s1);
      GroupRun(g.thousand, "Thousand", 1000, s2);
      var s3 := Run(c, s2);
      ThreeDigitRun(g.rest, s3);
      RunAppend(a, b, s0);
      RunAppend(a + b, c, s0);
      RunAppend(a + b + c, d, s0);
    }
  }

  /** Different amounts are written with different words. */
  lemma NumberWordsInjective(m: nat, n: nat)
    requires m < 20000000000 && n < 20000000000
    requires NumberWords(m) == NumberWords(n)
    ensures m == n
  {
    NumberWordsValue(m);
    NumberWordsValue(n);
  }
}
