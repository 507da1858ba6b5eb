/** The module-flag validator `processModules` (the -M / --modules flag). */
module ModuleFlags {
  import opened Wrappers

  /** The eight module codes: consensus, gateway, host, miner, renter, transaction pool,
      wallet and explorer. */
  const Codes: set<char> := {'c', 'g', 'h', 'm', 'r', 't', 'w', 'e'}

  /** Why a module string was refused; `code` is the offending character, lower-cased. */
  datatype ModuleError = UnknownModule(code: char) | DuplicateModule(code: char)

  /** ASCII lower-casing of one character. */
  function Lower(c: char): (l: char) {
    if 'A' <= c <= 'Z' then (c as int - 'A' as int + 'a' as int) as char else c
  }

  /** Lower-casing of a whole string, character by character. */
  function LowerString(s: string): (r: string)
    ensures |r| == |s|
    ensures forall i :: 0 <= i < |s| ==> r[i] == Lower(s[i])
  {
    seq(|s|, i requires 0 <= i < |s| => Lower(s[i]))
  }

  /** The declarative rule: every character, once lower-cased, is one of the eight codes,
      and no code occurs twice (case-insensitively). */
  ghost predicate ValidModuleSpec(s: string) {
    (forall i :: 0 <= i < |s| ==> Lower(s[i]) in Codes) &&
    (forall i, j :: 0 <= i < j < |s| ==> Lower(s[i]) != Lower(s[j]))
  }

  /** The left-to-right scan: lower-case each character, refuse it when it is not a code
      or when its code was seen already, and append it to the output otherwise. */
  function Scan(s: string, seen: set<char>): (r: Result<string, ModuleError>)
    ensures r.Ok? <==> ValidModuleSpec(s) && forall i :: 0 <= i < |s| ==> Lower(s[i]) !in seen
    ensures r.Ok? ==> r.value == LowerString(s)
    ensures r.Err? ==> exists i :: 0 <= i < |s| && Lower(s[i]) == r.error.code
    ensures r.Err? && r.error.UnknownModule? ==> r.error.code !in Codes
    ensures r.Err? && r.error.DuplicateModule? ==> r.error.code in Codes
    ensures r.Err? && r.error.DuplicateModule? ==>
      exists j :: 0 <= j < |s| && Lower(s[j]) == r.error.code &&
        (r.error.code in seen || exists i :: 0 <= i < j && Lower(s[i]) == r.error.code)
  {
    if s == [] then Ok("")
    else
      var m := Lower(s[0]);
      if m !in Codes then Err(UnknownModule(m))
      else if m in seen then Err(DuplicateModule(m))
      else
        match Scan(s[1..], seen + {m})
        case Err(e) => Err(e)
        case Ok(rest) => Ok([m] + rest)
  }

  /** `processModules`: succeeds exactly on the strings the rule accepts, and then returns
      the input lower-cased in its original order. */
  function ProcessModules(s: string): (r: Result<string, ModuleError>)
    ensures r.Ok? <==> ValidModuleSpec(s)
    ensures r.Ok? ==> r.value == LowerString(s)
    ensures r.Err? ==> exists i :: 0 <= i < |s| && Lower(s[i]) == r.error.code
    ensures r.Err? && r.error.UnknownModule? ==> r.error.code !in Codes
    ensures r.Err? && r.error.DuplicateModule? ==> r.error.code in Codes
    ensures r.Err? && r.error.DuplicateModule? ==>
      exists i, j :: 0 <= i < j < |s| && Lower(s[i]) == r.error.code && Lower(s[j]) == r.error.code
  {
    Scan(s, {})
  }

  /** A sequence of distinct elements of `S` is no longer than `S` is large. */
  lemma {:induction false} DistinctWithin(t: seq<char>, S: set<char>)
    requires forall i :: 0 <= i < |t| ==> t[i] in S
    requires forall i, j :: 0 <= i < j < |t| ==> t[i] != t[j]
    ensures |t| <= |S|
  {
    if t != [] {
      var rest := t[1..];
      forall i | 0 <= i < |rest| ensures rest[i] in S - {t[0]} {
        assert rest[i] == t[i + 1];
      }
      DistinctWithin(rest, S - {t[0]});
    }
  }

  /** An accepted module string selects at most the eight modules there are. */
  lemma ProcessModulesAtMostEight(s: string)
    requires ProcessModules(s).Ok?
    ensures |ProcessModules(s).value| <= |Codes|
  {
    var r := ProcessModules(s).value;
    DistinctWithin(r, Codes);
  }

  /** A lower-case code is its own lower-case form. */
  lemma LowerOfCode(c: char)
    requires c in Codes
    ensures Lower(c) == c
  {
  }

  /** The output of `processModules` is canonical: validating it again returns it unchanged. */
  lemma ProcessModulesIdempotent(s: string)
    requires ProcessModules(s).Ok?
    ensures ProcessModules(ProcessModules(s).value) == ProcessModules(s)
  {
    var r := ProcessModules(s).value;
    forall i | 0 <= i < |r| ensures Lower(r[i]) == r[i] {
      LowerOfCode(r[i]);
    }
    assert LowerString(r) == r;
  }

  /** The accepted rows of the table at daemon_test.go, lines 32-49: (input, output). */
  const ValidModuleCases: seq<(string, string)> := [
    ("cghmrtwe", "cghmrtwe"), ("CGHMRTWE", "cghmrtwe"),
    ("c", "c"), ("g", "g"), ("h", "h"), ("m", "m"),
    ("r", "r"), ("t", "t"), ("w", "w"), ("e", "e"),
    ("C", "c"), ("G", "g"), ("H", "h"), ("M", "m"),
    ("R", "r"), ("T", "t"), ("W", "w"), ("E", "e")
  ]

  /** The refused inputs listed at daemon_test.go, line 62. */
  const InvalidModuleCases: seq<string> :=
    ["abdfijklnopqsuvxyz", "cghmrtwez", "cz", "z", "cc", "ccz", "ccm", "cmm", "ccmm"]

  /** A one-character string is accepted exactly when its character is a code. */
  lemma AcceptsSingle(c: char)
    requires Lower(c) in Codes
    ensures ProcessModules([c]) == Ok([Lower(c)])
  {
    assert LowerString([c]) == [Lower(c)];
  }

  /** Any string that lower-cases to all eight codes, in this order, is accepted. */
  lemma AcceptsAllEight(s: string)
    requires LowerString(s) == "cghmrtwe"
    ensures ProcessModules(s) == Ok("cghmrtwe")
  {
    var all := "cghmrtwe";
    assert all == ['c', 'g', 'h', 'm', 'r', 't', 'w', 'e'];
    forall i, j | 0 <= i < j < |s| ensures Lower(s[i]) != Lower(s[j]) {
      assert Lower(s[i]) == all[i] && Lower(s[j]) == all[j];
    }
    forall i | 0 <= i < |s| ensures Lower(s[i]) in Codes {
      assert Lower(s[i]) == all[i];
    }
  }

  /** A character that is not a code, anywhere in the input, makes it fail. */
  lemma RefusesUnknownAt(s: string, i: nat)
    requires i < |s| && Lower(s[i]) !in Codes
    ensures ProcessModules(s).Err?
  {
  }

  /** A code that occurs twice, anywhere in the input, makes it fail. */
  lemma RefusesDuplicateAt(s: string, i: nat, j: nat)
    requires i < j < |s| && Lower(s[i]) == Lower(s[j])
    ensures ProcessModules(s).Err?
  {
  }

  /** Row `i` of the accepted table yields its expected output. */
  lemma AcceptedRow(i: nat)
    requires i < |ValidModuleCases|
    ensures ProcessModules(ValidModuleCases[i].0) == Ok(ValidModuleCases[i].1)
  {
    var (input, output) := ValidModuleCases[i];
    if i < 2 {
      assert LowerString(input) == output;
      AcceptsAllEight(input);
    } else {
      var singles := "cghmrtweCGHMRTWE";
      assert input == [singles[i - 2]] && output == [Lower(singles[i - 2])];
      AcceptsSingle(singles[i - 2]);
    }
  }

  /** Row `i` of the refused table fails. */
  lemma RefusedRow(i: nat)
    requires i < |InvalidModuleCases|
    ensures ProcessModules(InvalidModuleCases[i]).Err?
  {
    var input := InvalidModuleCases[i];
    if i < 4 {
      RefusesUnknownAt(input, |input| - 1);
    } else if i == 7 {
      RefusesDuplicateAt(input, 1, 2);
    } else {
      RefusesDuplicateAt(input, 0, 1);
    }
  }

  lemma ProcessModulesAcceptsTable()
    ensures forall i :: 0 <= i < |ValidModuleCases| ==>
      ProcessModules(ValidModuleCases[i].0) == Ok(ValidModuleCases[i].1)
  {
    forall i | 0 <= i < |ValidModuleCases|
      ensures ProcessModules(ValidModuleCases[i].0) == Ok(ValidModuleCases[i].1)
    {
      AcceptedRow(i);
    }
  }

  lemma ProcessModulesRefusesTable()
    ensures forall i :: 0 <= i < |InvalidModuleCases| ==> ProcessModules(InvalidModuleCases[i]).Err?
  {
    forall i | 0 <= i < |InvalidModuleCases| ensures ProcessModules(InvalidModuleCases[i]).Err? {
      RefusedRow(i);
    }
  }
}
