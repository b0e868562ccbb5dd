/**
 * The regular expressions `Reader#load` and `Reader#is_club_fixture?` test
 * fixture names with, written as position predicates. A regex search reports
 * the LEFTMOST position where its pattern matches; `FirstFrom` is that search,
 * and every token the router extracts (`$1`) is read at the position it returns.
 *
 * Ruby's `^` and `$` are line anchors: `^` holds at the start of the string
 * and after every line feed, `$` at the end of the string and before every
 * line feed. `\d` is an ASCII digit and `[^\/]` any character but `/`.
 */
module Patterns {
  import opened Wrappers
  import opened Text

  // ---------------------------------------------------------------------------
  // The search

  /** The leftmost position `j` in `i..|s|` at which `at` holds. */
  function FirstFrom(s: string, i: nat, at: (string, nat) -> bool): (r: Option<nat>)
    requires i <= |s|
    decreases |s| - i
    ensures r.Some? ==> i <= r.value <= |s| && at(s, r.value)
    ensures r.Some? ==> forall j: nat :: i <= j < r.value ==> !at(s, j)
    ensures r.None? ==> forall j: nat :: i <= j <= |s| ==> !at(s, j)
  {
    if at(s, i) then Some(i) else if i == |s| then None else FirstFrom(s, i + 1, at)
  }

  function Leftmost(s: string, at: (string, nat) -> bool): Option<nat>
  {
    FirstFrom(s, 0, at)
  }

  /** `s =~ pattern` is truthy. */
  predicate Matches(s: string, at: (string, nat) -> bool)
  {
    Leftmost(s, at).Some?
  }

  // ---------------------------------------------------------------------------
  // Anchors and atoms

  predicate LineStartAt(s: string, i: nat)
  {
    i == 0 || (i <= |s| && s[i - 1] == '\n')
  }

  predicate LineEndAt(s: string, i: nat)
  {
    i == |s| || (i < |s| && s[i] == '\n')
  }

  predicate DigitAt(s: string, i: nat) { i < |s| && IsDigit(s[i]) }

  predicate LowerAt(s: string, i: nat) { i < |s| && IsLower(s[i]) }

  predicate SlashAt(s: string, i: nat) { i < |s| && s[i] == '/' }

  /** `/^p/` at `i`. */
  predicate AnchoredAt(s: string, i: nat, p: string)
  {
    LineStartAt(s, i) && LitAt(s, i, p)
  }

  /** `/(?:^|\/)p/` at `i`: `p` opens a line, or follows a `/`. */
  predicate SegmentAt(s: string, i: nat, p: string)
  {
    AnchoredAt(s, i, p) || LitAt(s, i, "/" + p)
  }

  /** No `/` among `s[j..k]`. */
  predicate NoSlash(s: string, j: nat, k: nat)
    requires j <= k <= |s|
  {
    forall t :: j <= t < k ==> s[t] != '/'
  }

  /** `[^\/]*` from `j` can stop at some position where `stop` holds. */
  function RunReaches(s: string, j: nat, stop: (string, nat) -> bool): (r: bool)
    requires j <= |s|
    decreases |s| - j
    ensures r <==> exists k: nat :: j <= k <= |s| && NoSlash(s, j, k) && stop(s, k)
  {
    if stop(s, j) then
      assert NoSlash(s, j, j);
      true
    else if j < |s| && s[j] != '/' then
      var r := RunReaches(s, j + 1, stop);
      assert r ==> exists k: nat :: j <= k <= |s| && NoSlash(s, j, k) && stop(s, k) by {
        if r {
          var k: nat :| j + 1 <= k <= |s| && NoSlash(s, j + 1, k) && stop(s, k);
          assert NoSlash(s, j, k);
        }
      }
      assert (exists k: nat :: j <= k <= |s| && NoSlash(s, j, k) && stop(s, k)) ==> r by {
        if exists k: nat :: j <= k <= |s| && NoSlash(s, j, k) && stop(s, k) {
          var k: nat :| j <= k <= |s| && NoSlash(s, j, k) && stop(s, k);
          assert k != j;
          assert NoSlash(s, j + 1, k);
        }
      }
      r
    else
      assert forall k: nat :: j < k <= |s| ==> !NoSlash(s, j, k);
      false
  }

  /** `[^\/]+` from `j`, followed by a position where `stop` holds. */
  predicate PlusRunAt(s: string, j: nat, stop: (string, nat) -> bool)
  {
    j < |s| && s[j] != '/' && RunReaches(s, j + 1, stop)
  }

  // ---------------------------------------------------------------------------
  // The patterns of Reader#load

  function Anchored(p: string): (string, nat) -> bool { (s: string, i: nat) => AnchoredAt(s, i, p) }

  function Literal(p: string): (string, nat) -> bool { (s: string, i: nat) => LitAt(s, i, p) }

  function Segment(p: string): (string, nat) -> bool { (s: string, i: nat) => SegmentAt(s, i, p) }

  /** `/\/squads\/([a-z]{2,3})-[^\/]+$/` at `i`. */
  predicate NationalSquadsAt(s: string, i: nat)
  {
    var k := i + 8;
    && LitAt(s, i, "/squads/") && LowerAt(s, k) && LowerAt(s, k + 1)
    && (|| (LitAt(s, k + 2, "-") && PlusRunAt(s, k + 3, LineEndAt))
        || (LowerAt(s, k + 2) && LitAt(s, k + 3, "-") && PlusRunAt(s, k + 4, LineEndAt)))
  }

  /** `$1` of the squads pattern matched at `i`: three letters when three stand there, else two. */
  function SquadsCountryKey(s: string, i: nat): (key: string)
    requires NationalSquadsAt(s, i)
    ensures 2 <= |key| <= 3 && LitAt(s, i + 8, key + "-")
    ensures forall c :: c in key ==> IsLower(c)
  {
    var k := i + 8;
    if LowerAt(s, k + 2) then
      assert LitAt(s, k + 3, "-");
      s[k..k + 3]
    else
      s[k..k + 2]
  }

  /** A match of the squads pattern at `i` spells `/squads/`, its key, `-`, and a run without `/` that ends a line. */
  lemma NationalSquadsMatchShape(s: string, i: nat)
    requires NationalSquadsAt(s, i)
    ensures var key := SquadsCountryKey(s, i);
      && LitAt(s, i, "/squads/" + key + "-")
      && exists e: nat :: i + 9 + |key| <= e <= |s| && NoSlash(s, i + 9 + |key|, e) && LineEndAt(s, e)
  {
    var key := SquadsCountryKey(s, i);
    assert s[i..i + 8] == "/squads/";
    assert s[i + 8..i + 9 + |key|] == key + "-";
    assert s[i..i + 9 + |key|] == s[i..i + 8] + s[i + 8..i + 9 + |key|];
    var q := i + 9 + |key|;
    assert PlusRunAt(s, q, LineEndAt);
    var e: nat :| q + 1 <= e <= |s| && NoSlash(s, q + 1, e) && LineEndAt(s, e);
    assert NoSlash(s, q, e);
  }

  /** `/\/([0-9]{2})-/` at `i`. */
  predicate RacePosAt(s: string, i: nat)
  {
    SlashAt(s, i) && DigitAt(s, i + 1) && DigitAt(s, i + 2) && LitAt(s, i + 3, "-")
  }

  /** `$1.to_i` of the race pattern matched at `i`. */
  function RacePos(s: string, i: nat): (pos: nat)
    requires RacePosAt(s, i)
    ensures AllDigits(s[i + 1..i + 3]) && pos == DigitsValue(s[i + 1..i + 3])
    ensures pos < 100
  {
    var digits := s[i + 1..i + 3];
    assert digits[..1][..0] == [] && digits[..1] == [s[i + 1]] && digits[1] == s[i + 2];
    assert DigitsValue(digits[..1]) == DigitValue(s[i + 1]);
    assert DigitsValue(digits) == DigitsValue(digits[..1]) * 10 + DigitValue(s[i + 2]);
    10 * DigitValue(s[i + 1]) + DigitValue(s[i + 2])
  }

  /** `\d{4}` at `i`. */
  predicate YearAt(s: string, i: nat)
  {
    DigitAt(s, i) && DigitAt(s, i + 1) && DigitAt(s, i + 2) && DigitAt(s, i + 3)
  }

  /** `\d{4}_\d{2}` at `i`. */
  predicate SeasonPairAt(s: string, i: nat)
  {
    YearAt(s, i) && LitAt(s, i + 4, "_") && DigitAt(s, i + 5) && DigitAt(s, i + 6)
  }

  /** `(--[^\/]+)?\/` at `e`. */
  predicate SeasonDirTailAt(s: string, e: nat)
  {
    SlashAt(s, e) || (LitAt(s, e, "--") && PlusRunAt(s, e + 2, SlashAt))
  }

  /** `/\/(\d{4}|\d{4}_\d{2})(--[^\/]+)?\//` at `i`: a season folder. */
  predicate SeasonDirAt(s: string, i: nat)
  {
    SlashAt(s, i) && ((YearAt(s, i + 1) && SeasonDirTailAt(s, i + 5)) || (SeasonPairAt(s, i + 1) && SeasonDirTailAt(s, i + 8)))
  }

  /** `/\/(\d{4}|\d{4}_\d{2})$/` at `i`: a season token that ends the line. */
  predicate SeasonEndAt(s: string, i: nat)
  {
    SlashAt(s, i) && ((YearAt(s, i + 1) && LineEndAt(s, i + 5)) || (SeasonPairAt(s, i + 1) && LineEndAt(s, i + 8)))
  }

  // ---------------------------------------------------------------------------
  // Reader#is_club_fixture?

  /** `s =~ /p/` for a literal `p` holds exactly when `p` occurs somewhere in `s`. */
  lemma LiteralMatchIsOccurs(s: string, p: string)
    ensures Matches(s, Literal(p)) <==> Occurs(s, p)
  {
    if Occurs(s, p) {
      var i: nat :| LitAt(s, i, p);
      assert Literal(p)(s, i);
    }
  }

  ghost predicate NamesClubWorldCup(name: string)
  {
    Occurs(name, "club-world-cup/") || Occurs(name, "club-world-cup!/")
  }

  ghost predicate NamesNationalCup(name: string)
  {
    Occurs(name, "copa-america/") || Occurs(name, "copa-america!/") || Occurs(name, "-cup/") || Occurs(name, "-cup!/")
  }

  /**
   * The club-versus-national-team guess: `club-world-cup/` (or `club-world-cup!/`)
   * is a club competition, checked first; otherwise `copa-america/`, `-cup/` and
   * their `!` variants are national-team competitions; everything else is a club one.
   */
  function IsClubFixture(name: string): (club: bool)
    ensures club <==> NamesClubWorldCup(name) || !NamesNationalCup(name)
  {
    LiteralMatchIsOccurs(name, "club-world-cup/");
    LiteralMatchIsOccurs(name, "club-world-cup!/");
    LiteralMatchIsOccurs(name, "copa-america/");
    LiteralMatchIsOccurs(name, "copa-america!/");
    LiteralMatchIsOccurs(name, "-cup/");
    LiteralMatchIsOccurs(name, "-cup!/");
    if Matches(name, Literal("club-world-cup/")) || Matches(name, Literal("club-world-cup!/")) then true
    else if || Matches(name, Literal("copa-america/")) || Matches(name, Literal("copa-america!/"))
            || Matches(name, Literal("-cup/")) || Matches(name, Literal("-cup!/")) then false
    else true
  }

  /**
   * Every club-world-cup name also names a `-cup` folder, so the order of the
   * two tests decides the answer: the club-world-cup test wins.
   */
  lemma ClubWorldCupTakesPrecedence(name: string)
    requires NamesClubWorldCup(name)
    ensures NamesNationalCup(name)
    ensures IsClubFixture(name)
  {
    if Occurs(name, "club-world-cup/") {
      var i: nat :| LitAt(name, i, "club-world-cup/");
      assert name[i + 10..i + 15] == name[i..i + 15][10..15];
      assert LitAt(name, i + 10, "-cup/");
    } else {
      var i: nat :| LitAt(name, i, "club-world-cup!/");
      assert name[i + 10..i + 16] == name[i..i + 16][10..16];
      assert LitAt(name, i + 10, "-cup!/");
    }
  }

  /** Without a club-world-cup folder, a name is a club fixture exactly when it names no national cup. */
  lemma ClubUnlessNationalCup(name: string)
    requires !NamesClubWorldCup(name)
    ensures IsClubFixture(name) <==> !NamesNationalCup(name)
  {
  }

  /** Every pattern of the heuristic ends in `/`, so a name without `/` (say `brazil-cup`) counts as a club. */
  lemma NoFolderIsClub(name: string)
    requires '/' !in name
    ensures IsClubFixture(name)
  {
    if NamesNationalCup(name) {
      if Occurs(name, "copa-america/") { OccursCarriesChar(name, "copa-america/", 12); }
      else if Occurs(name, "copa-america!/") { OccursCarriesChar(name, "copa-america!/", 13); }
      else if Occurs(name, "-cup/") { OccursCarriesChar(name, "-cup/", 4); }
      else { OccursCarriesChar(name, "-cup!/", 5); }
    }
  }

  lemma NoClubWorldCupWithoutW(name: string)
    requires 'w' !in name
    ensures !NamesClubWorldCup(name)
  {
    if Occurs(name, "club-world-cup/") { OccursCarriesChar(name, "club-world-cup/", 5); }
    if Occurs(name, "club-world-cup!/") { OccursCarriesChar(name, "club-world-cup!/", 5); }
  }

  /** The club world cup folder is a club competition although it also names a `-cup/` folder. */
  lemma ClubWorldCupExample()
    ensures IsClubFixture("club-world-cup/2016")
  {
    assert LitAt("club-world-cup/2016", 0, "club-world-cup/");
    ClubWorldCupTakesPrecedence("club-world-cup/2016");
  }

  /** The Copa America and a national cup are national-team competitions. */
  lemma NationalCupExamples()
    ensures !IsClubFixture("copa-america/2016")
    ensures !IsClubFixture("brazil-cup/2016")
  {
    NoClubWorldCupWithoutW("copa-america/2016");
    assert LitAt("copa-america/2016", 0, "copa-america/");
    ClubUnlessNationalCup("copa-america/2016");
    NoClubWorldCupWithoutW("brazil-cup/2016");
    assert LitAt("brazil-cup/2016", 6, "-cup/");
    ClubUnlessNationalCup("brazil-cup/2016");
  }

  /** A league season folder names no cup, so it is a club competition. */
  lemma LeagueFolderExample()
    ensures IsClubFixture("bl/2013_14")
  {
    var league := "bl/2013_14";
    assert 'c' !in league && 'w' !in league;
    NoClubWorldCupWithoutW(league);
    if Occurs(league, "-cup/") { OccursCarriesChar(league, "-cup/", 1); }
    if Occurs(league, "-cup!/") { OccursCarriesChar(league, "-cup!/", 1); }
    ClubUnlessNationalCup(league);
  }

  // ---------------------------------------------------------------------------
  // Single-line names

  /** In a name without line feeds `^` holds only at 0 and `$` only at the end. */
  lemma SingleLineAnchors(s: string, i: nat)
    requires '\n' !in s
    ensures LineStartAt(s, i) <==> i == 0
    ensures LineEndAt(s, i) <==> i == |s|
  {
    if 0 < i <= |s| { assert s[i - 1] in s; }
    if i < |s| { assert s[i] in s; }
  }

  /** A name that begins, on its only line, with `p` matches `/^p/`; and one that matches begins with `p`. */
  lemma SingleLineAnchoredMatch(s: string, p: string)
    requires '\n' !in s
    ensures Matches(s, Anchored(p)) <==> LitAt(s, 0, p)
  {
    if Matches(s, Anchored(p)) {
      SingleLineAnchors(s, Leftmost(s, Anchored(p)).value);
    }
  }
}
