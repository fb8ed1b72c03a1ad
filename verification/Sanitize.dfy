/** The file name sanitizer. A name is a sequence of bytes, written as characters below 256; the
    regular expression works on runes, but a run of bytes outside its ASCII class is a run of runes
    outside it. */
module Sanitize {

  const MAX_LENGTH: nat := 200

  /** filepath.Base with '/' as the separator. */
  function Base(name: string): (r: string)
    ensures r != []
  {
    if name == "" then "."
    else
      var trimmed := TrimSlashes(name);
      if trimmed == "" then "/" else AfterLastSlash(trimmed)
  }

  function TrimSlashes(name: string): (r: string)
    ensures r <= name && (r != [] ==> r[|r| - 1] != '/')
    ensures '/' !in name ==> r == name
  {
    if name != [] && name[|name| - 1] == '/' then TrimSlashes(name[..|name| - 1]) else name
  }

  function AfterLastSlash(name: string): (r: string)
    ensures '/' !in r
    ensures '/' !in name ==> r == name
    ensures name != [] && name[|name| - 1] != '/' ==> r != []
  {
    if name == [] || name[|name| - 1] == '/' then []
    else AfterLastSlash(name[..|name| - 1]) + [name[|name| - 1]]
  }

  predicate TwoDotsAt(s: string, i: int) {
    0 <= i < |s| - 1 && s[i] == '.' && s[i + 1] == '.'
  }

  predicate NoTwoDots(s: string) {
    forall i | 0 <= i < |s| :: !TwoDotsAt(s, i)
  }

  /** strings.ReplaceAll(s, "..", "_"). */
  function ReplaceDots(s: string): string {
    if s == [] then []
    else if TwoDotsAt(s, 0) then ['_'] + ReplaceDots(s[2..])
    else [s[0]] + ReplaceDots(s[1..])
  }

  predicate Safe(c: char) {
    'a' <= c <= 'z' || 'A' <= c <= 'Z' || '0' <= c <= '9' || c == '.' || c == '_' || c == '-'
  }

  /** Every longest run of unsafe characters becomes one underscore; `inRun` tells that the run the
      text starts in has its underscore already. */
  function Collapse(s: string, inRun: bool): string {
    if s == [] then []
    else if Safe(s[0]) then [s[0]] + Collapse(s[1..], false)
    else (if inRun then [] else ['_']) + Collapse(s[1..], true)
  }

  function Truncate(s: string): string {
    if |s| > MAX_LENGTH then s[..MAX_LENGTH] else s
  }

  function Sanitize(name: string): string {
    Truncate(Collapse(ReplaceDots(Base(name)), false))
  }

  predicate Normal(s: string) {
    0 < |s| <= MAX_LENGTH && (forall c | c in s :: Safe(c)) && NoTwoDots(s)
  }

  // ---------------------------------------------------------------- results are normal

  lemma NoTwoDotsCons(c: char, s: string)
    requires NoTwoDots(s) && (c != '.' || s == [] || s[0] != '.')
    ensures NoTwoDots([c] + s)
  {
    forall i | 0 <= i < |[c] + s| ensures !TwoDotsAt([c] + s, i) {
      assert i > 0 ==> !TwoDotsAt(s, i - 1);
    }
  }

  lemma {:induction false} ReplacedHasNoTwoDots(s: string)
    ensures NoTwoDots(ReplaceDots(s))
    ensures s != [] ==> ReplaceDots(s) != [] && (ReplaceDots(s)[0] == '.' ==> s[0] == '.')
  {
    if s == [] {
    } else if TwoDotsAt(s, 0) {
      ReplacedHasNoTwoDots(s[2..]);
      NoTwoDotsCons('_', ReplaceDots(s[2..]));
    } else {
      ReplacedHasNoTwoDots(s[1..]);
      NoTwoDotsCons(s[0], ReplaceDots(s[1..]));
    }
  }

  lemma {:induction false} CollapsedIsSafe(s: string, inRun: bool)
    requires NoTwoDots(s)
    ensures NoTwoDots(Collapse(s, inRun)) && forall c | c in Collapse(s, inRun) :: Safe(c)
    ensures s != [] && !inRun ==> Collapse(s, inRun) != []
    ensures !inRun && Collapse(s, inRun) != [] && Collapse(s, inRun)[0] == '.' ==> s[0] == '.'
  {
    if s == [] {
    } else {
      assert forall i | 0 <= i < |s[1..]| :: TwoDotsAt(s[1..], i) ==> TwoDotsAt(s, i + 1);
      if Safe(s[0]) {
        CollapsedIsSafe(s[1..], false);
        assert !TwoDotsAt(s, 0);
        NoTwoDotsCons(s[0], Collapse(s[1..], false));
      } else {
        CollapsedIsSafe(s[1..], true);
        if inRun {
          assert Collapse(s, inRun) == Collapse(s[1..], true);
        } else {
          NoTwoDotsCons('_', Collapse(s[1..], true));
        }
      }
    }
  }

  /** Whatever the name, the result is non-empty, at most 200 characters long, drawn from the safe
      alphabet and without two adjacent dots. */
  lemma ResultIsNormal(name: string)
    ensures Normal(Sanitize(name))
  {
    var replaced := ReplaceDots(Base(name));
    ReplacedHasNoTwoDots(Base(name));
    CollapsedIsSafe(replaced, false);
    var collapsed := Collapse(replaced, false);
    forall i | 0 <= i < |Truncate(collapsed)| ensures !TwoDotsAt(Truncate(collapsed), i) {
      assert !TwoDotsAt(collapsed, i);
    }
  }

  // ---------------------------------------------------------------- normal names are kept

  lemma {:induction false} NothingToReplace(s: string)
    requires NoTwoDots(s)
    ensures ReplaceDots(s) == s
  {
    if s == [] {
    } else {
      assert !TwoDotsAt(s, 0);
      forall i | 0 <= i < |s[1..]| ensures !TwoDotsAt(s[1..], i) {
        assert !TwoDotsAt(s, i + 1);
      }
      NothingToReplace(s[1..]);
    }
  }

  lemma {:induction false} NothingToCollapse(s: string)
    requires forall c | c in s :: Safe(c)
    ensures Collapse(s, false) == s
  {
    if s == [] {
    } else {
      assert s[0] in s;
      NothingToCollapse(s[1..]);
    }
  }

  /** The names that come back unchanged are exactly the normal ones. */
  lemma UnchangedExactlyWhenNormal(name: string)
    ensures Sanitize(name) == name <==> Normal(name)
  {
    if Normal(name) {
      assert '/' !in name;
      NothingToReplace(name);
      NothingToCollapse(name);
    } else {
      ResultIsNormal(name);
    }
  }

  /** Sanitizing twice is sanitizing once. */
  lemma SanitizeIsIdempotent(name: string)
    ensures Sanitize(Sanitize(name)) == Sanitize(name)
  {
    ResultIsNormal(name);
    UnchangedExactlyWhenNormal(Sanitize(name));
  }

  // ---------------------------------------------------------------- what becomes of every name

  /** The 65 ASCII letters, digits, dot, dash and underscore, by their codes. */
  lemma SafeAlphabet(c: char)
    ensures Safe(c) <==> 48 <= c as int <= 57 || 65 <= c as int <= 90 || 97 <= c as int <= 122
                         || c as int in {45, 46, 95}
  {}

  /** How many dots stand right before position `k`. */
  function DotsBefore(s: string, k: nat): nat
    requires k <= |s|
  {
    if k > 0 && s[k - 1] == '.' then 1 + DotsBefore(s, k - 1) else 0
  }

  /** What position `k` of a name contributes to the result. Dots pair up from the left: the first of a pair
      becomes an underscore and the second vanishes. Any other safe character stays, and of a run of unsafe
      ones the first becomes an underscore and the rest vanish. */
  function Contribution(s: string, k: nat): string
    requires k < |s|
  {
    if s[k] == '.' then
      if DotsBefore(s, k) % 2 == 1 then "" else if k + 1 < |s| && s[k + 1] == '.' then "_" else "."
    else if Safe(s[k]) then [s[k]]
    else if k > 0 && !Safe(s[k - 1]) then ""
    else "_"
  }

  /** What the positions from `k` on contribute, one after the other. */
  function Contributions(s: string, k: nat): string
    requires k <= |s|
    decreases |s| - k
  {
    if k == |s| then "" else Contribution(s, k) + Contributions(s, k + 1)
  }

  lemma ReplaceAt(s: string, k: nat)
    requires k < |s|
    ensures ReplaceDots(s[k..]) == if TwoDotsAt(s, k) then "_" + ReplaceDots(s[k + 2..])
                                   else [s[k]] + ReplaceDots(s[k + 1..])
  {
    if TwoDotsAt(s, k) {
      assert s[k..][2..] == s[k + 2..];
    } else {
      assert s[k..][1..] == s[k + 1..];
    }
  }

  lemma CollapseCons(c: char, s: string, inRun: bool)
    ensures Collapse([c] + s, inRun) == if Safe(c) then [c] + Collapse(s, false)
                                        else (if inRun then [] else ['_']) + Collapse(s, true)
  {
    assert ([c] + s)[1..] == s;
  }

  lemma {:induction false} CollapsedContributions(s: string, k: nat)
    requires k <= |s| && (k < |s| && s[k] == '.' ==> DotsBefore(s, k) % 2 == 0)
    ensures Collapse(ReplaceDots(s[k..]), k > 0 && !Safe(s[k - 1])) == Contributions(s, k)
    decreases |s| - k
  {
    if k < |s| {
      var inRun := k > 0 && !Safe(s[k - 1]);
      ReplaceAt(s, k);
      if TwoDotsAt(s, k) {
        assert DotsBefore(s, k + 1) == DotsBefore(s, k) + 1 && DotsBefore(s, k + 2) == DotsBefore(s, k) + 2;
        assert Contribution(s, k) == "_" && Contribution(s, k + 1) == "";
        assert Contributions(s, k) == "_" + Contributions(s, k + 2);
        CollapseCons('_', ReplaceDots(s[k + 2..]), inRun);
        CollapsedContributions(s, k + 2);
      } else {
        CollapseCons(s[k], ReplaceDots(s[k + 1..]), inRun);
        CollapsedContributions(s, k + 1);
      }
    }
  }

  /** For every name without a slash: the result is what its positions contribute, cut at 200 characters. */
  lemma EveryPositionContributes(name: string)
    requires '/' !in name && name != ""
    ensures var all := Contributions(name, 0);
            Sanitize(name) == if |all| <= 200 then all else all[..200]
  {
    assert name[0..] == name;
    CollapsedContributions(name, 0);
  }

  /** The directory of a name does not matter. */
  lemma OnlyTheBaseMatters(directory: string, base: string)
    requires base != "" && '/' !in base
    ensures Sanitize(directory + "/" + base) == Sanitize(base)
  {
    AfterSlash(directory, base);
  }

  /** Without any name the result is a dot, and for the root an underscore. */
  lemma NoNameAtAll()
    ensures Sanitize("") == "." && Sanitize("/") == "_"
  {
    EveryPositionContributes(".");
    assert TrimSlashes("/") == "" && Base("/") == "/" && ReplaceDots("/") == "/";
    assert Collapse("/", false) == "_";
  }

  /** Nor does a slash at its end. */
  lemma SlashAtEnd(name: string)
    requires name != ""
    ensures Sanitize(name + "/") == Sanitize(name)
  {
    assert (name + "/")[..|name|] == name;
  }

  lemma {:induction false} AfterSlash(directory: string, base: string)
    requires base != "" && '/' !in base
    ensures AfterLastSlash(directory + "/" + base) == base
    ensures TrimSlashes(directory + "/" + base) == directory + "/" + base
    decreases |base|
  {
    var name, most := directory + "/" + base, base[..|base| - 1];
    assert name[|name| - 1] == base[|base| - 1] && base[|base| - 1] in base;
    assert name[..|name| - 1] == directory + "/" + most;
    if most == "" {
      assert (directory + "/")[|directory|] == '/';
      assert AfterLastSlash(directory + "/") == [];
    } else {
      AfterSlash(directory, most);
    }
    assert base == most + [base[|base| - 1]];
  }
}
