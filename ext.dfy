/**
 * The String extensions and the key-rewriting utilities of lib/ext.rb.
 *
 * Each `gsub` is written as the left-to-right scan Ruby's regexp engine
 * performs: at each position it tries the pattern, on a match it emits the
 * replacement and resumes after the match, otherwise it copies one character
 * and tries the next position.  Character classes and case mapping are ASCII.
 */
module Ext {
  import opened RubyValue

  // ---------------------------------------------------------------------------
  // String#underscore
  // ---------------------------------------------------------------------------

  /** `gsub(/::/, '/')` */
  function ColonsToSlash(s: string): string {
    if |s| >= 2 && s[0] == ':' && s[1] == ':' then "/" + ColonsToSlash(s[2..])
    else if s == [] then []
    else [s[0]] + ColonsToSlash(s[1..])
  }

  /**
   * `gsub(/([A-Z]+)([A-Z][a-z])/, '\1_\2')`.  Scanning from a capital, the
   * greedy `[A-Z]+` takes the whole run of capitals and gives back its last
   * one for `[A-Z]`, so the pattern matches exactly when that run has at
   * least two capitals and is followed by a lower-case letter, and '_' lands
   * before the run's last capital.  A match ends on that lower-case letter,
   * so matches never overlap and the rewrite is the local one below: '_' goes
   * between two capitals exactly when the second is followed by a lower-case
   * letter.
   */
  function SplitAcronym(s: string): string {
    if |s| >= 3 && IsUpper(s[0]) && IsUpper(s[1]) && IsLower(s[2]) then
      [s[0]] + "_" + SplitAcronym(s[1..])
    else if s == [] then []
    else [s[0]] + SplitAcronym(s[1..])
  }

  /** `gsub(/([a-z\d])([A-Z])/, '\1_\2')` */
  function SplitCamel(s: string): string {
    if |s| >= 2 && (IsLower(s[0]) || IsDigit(s[0])) && IsUpper(s[1]) then
      [s[0], '_', s[1]] + SplitCamel(s[2..])
    else if s == [] then []
    else [s[0]] + SplitCamel(s[1..])
  }

  /** `tr("-", "_")` */
  function DashesToUnderscores(s: string): (r: string)
    ensures |r| == |s|
    ensures forall i :: 0 <= i < |s| ==> r[i] == (if s[i] == '-' then '_' else s[i])
  {
    if s == [] then [] else [if s[0] == '-' then '_' else s[0]] + DashesToUnderscores(s[1..])
  }

  /** `downcase` */
  function Downcase(s: string): (r: string)
    ensures |r| == |s|
    ensures forall i :: 0 <= i < |s| ==> r[i] == DowncaseChar(s[i])
  {
    if s == [] then [] else [DowncaseChar(s[0])] + Downcase(s[1..])
  }

  /** `upcase` */
  function Upcase(s: string): (r: string)
    ensures |r| == |s|
    ensures forall i :: 0 <= i < |s| ==> r[i] == UpcaseChar(s[i])
  {
    if s == [] then [] else [UpcaseChar(s[0])] + Upcase(s[1..])
  }

  /** The strings `underscore` produces contain no "::", no '-' and no capital. */
  function Underscore(s: string): (r: string)
    ensures NoDoubleColon(r)
    ensures forall i :: 0 <= i < |r| ==> r[i] != '-' && !IsUpper(r[i])
  {
    var a := ColonsToSlash(s);
    ColonsToSlashRemovesDoubleColons(s);
    SplitAcronymKeepsNoDoubleColon(a);
    SplitCamelKeepsNoDoubleColon(SplitAcronym(a));
    Downcase(DashesToUnderscores(SplitCamel(SplitAcronym(a))))
  }

  predicate NoDoubleColon(s: string) {
    forall i :: 0 <= i < |s| - 1 ==> !(s[i] == ':' && s[i + 1] == ':')
  }

  predicate NoUpper(s: string) {
    forall i :: 0 <= i < |s| ==> !IsUpper(s[i])
  }

  lemma {:induction false} ColonsToSlashRemovesDoubleColons(s: string)
    ensures NoDoubleColon(ColonsToSlash(s))
    decreases |s|
  {
    if |s| >= 2 && s[0] == ':' && s[1] == ':' {
      ColonsToSlashRemovesDoubleColons(s[2..]);
    } else if s != [] {
      ColonsToSlashRemovesDoubleColons(s[1..]);
      if s[0] == ':' && |s| >= 2 {
        ColonsToSlashHead(s[1..]);
      }
    }
  }

  lemma {:induction false} ColonsToSlashHead(s: string)
    requires s != [] && s[0] != ':'
    ensures ColonsToSlash(s) != [] && ColonsToSlash(s)[0] == s[0]
  {
  }

  /** A string without "::" passes the first rewrite unchanged. */
  lemma {:induction false} ColonsToSlashIdentity(s: string)
    requires NoDoubleColon(s)
    ensures ColonsToSlash(s) == s
    decreases |s|
  {
    if s != [] {
      ColonsToSlashIdentity(s[1..]);
    }
  }

  /** Text without ':' is copied unchanged ahead of the rest of the rewrite. */
  lemma {:induction false} ColonsToSlashPrefix(a: string, b: string)
    requires forall i :: 0 <= i < |a| ==> a[i] != ':'
    ensures ColonsToSlash(a + b) == a + ColonsToSlash(b)
    decreases |a|
  {
    if a == [] {
      assert a + b == b;
    } else {
      assert (a + b)[0] == a[0];
      assert (a + b)[1..] == a[1..] + b;
      ColonsToSlashPrefix(a[1..], b);
    }
  }

  /** The first "::" of a string becomes '/', and the rewrite resumes right after it. */
  lemma ColonsToSlashStep(a: string, b: string)
    requires forall i :: 0 <= i < |a| ==> a[i] != ':'
    ensures ColonsToSlash(a + "::" + b) == a + "/" + ColonsToSlash(b)
  {
    ColonsToSlashPrefix(a, "::" + b);
    assert a + "::" + b == a + ("::" + b);
    assert ("::" + b)[2..] == b;
  }

  lemma {:induction false} SplitCamelHead(s: string)
    requires s != []
    ensures SplitCamel(s) != [] && SplitCamel(s)[0] == s[0]
  {
  }

  lemma {:induction false} SplitAcronymHead(s: string)
    requires s != []
    ensures SplitAcronym(s) != [] && SplitAcronym(s)[0] == s[0]
  {
  }

  /**
   * After the digit/lower-case-to-capital rewrite no lower-case letter or
   * digit is directly followed by a capital: '_' has been put between them.
   */
  predicate NoLowerBeforeUpper(r: string) {
    forall i :: 0 <= i < |r| - 1 ==> !((IsLower(r[i]) || IsDigit(r[i])) && IsUpper(r[i + 1]))
  }

  lemma {:induction false} SplitCamelSeparates(s: string)
    ensures NoLowerBeforeUpper(SplitCamel(s))
  {
    var r := SplitCamel(s);
    if |s| >= 2 && (IsLower(s[0]) || IsDigit(s[0])) && IsUpper(s[1]) {
      var rest := SplitCamel(s[2..]);
      SplitCamelSeparates(s[2..]);
      assert r == [s[0], '_', s[1]] + rest;
      assert r[1] == '_' && r[2] == s[1];
      forall i | 0 <= i < |r| - 1 ensures !((IsLower(r[i]) || IsDigit(r[i])) && IsUpper(r[i + 1])) {
        if i >= 3 {
          assert r[i] == rest[i - 3] && r[i + 1] == rest[i - 2];
        } else if i == 2 {
          assert IsUpper(r[2]);
        } else {
          assert r[1] == '_';
        }
      }
    } else if s != [] {
      var rest := SplitCamel(s[1..]);
      SplitCamelSeparates(s[1..]);
      assert r == [s[0]] + rest;
      if |s| >= 2 {
        SplitCamelHead(s[1..]);
      }
      forall i | 1 <= i < |r| - 1 ensures r[i] == rest[i - 1] && r[i + 1] == rest[i] {
      }
    }
  }

  /** The characters of `s` other than '_'. */
  function DropUnderscores(s: string): (r: string)
    ensures |r| <= |s|
  {
    if s == [] then [] else (if s[0] == '_' then [] else [s[0]]) + DropUnderscores(s[1..])
  }

  lemma {:induction false} DropUnderscoresAppend(a: string, b: string)
    ensures DropUnderscores(a + b) == DropUnderscores(a) + DropUnderscores(b)
  {
    if a != [] {
      var head := if a[0] == '_' then [] else [a[0]];
      assert (a + b)[0] == a[0];
      assert (a + b)[1..] == a[1..] + b;
      DropUnderscoresAppend(a[1..], b);
      calc {
        DropUnderscores(a + b);
        head + DropUnderscores(a[1..] + b);
        head + (DropUnderscores(a[1..]) + DropUnderscores(b));
        (head + DropUnderscores(a[1..])) + DropUnderscores(b);
        DropUnderscores(a) + DropUnderscores(b);
      }
    } else {
      assert a + b == b;
    }
  }

  /** Removing an inserted '_' gives back the string without it. */
  lemma DropUnderscoresInsert(a: string, b: string)
    ensures DropUnderscores(a + "_" + b) == DropUnderscores(a + b)
  {
    DropUnderscoresAppend(a + "_", b);
    DropUnderscoresAppend(a, "_");
    DropUnderscoresAppend(a, b);
    assert DropUnderscores("_") == [];
  }

  /** A step that inserts '_' between `a` and `b` and rewrites the rest on its own. */
  lemma DropUnderscoresInsertStep(a: string, b: string, t: string, t': string)
    requires DropUnderscores(t') == DropUnderscores(t)
    ensures DropUnderscores(a + "_" + b + t') == DropUnderscores(a + b + t)
  {
    DropUnderscoresAppend(a + "_" + b, t');
    DropUnderscoresInsert(a, b);
    DropUnderscoresAppend(a + b, t);
  }

  /** A step that keeps its first character: the rest is rewritten on its own. */
  lemma DropUnderscoresCons(c: char, t: string, t': string)
    requires DropUnderscores(t') == DropUnderscores(t)
    ensures DropUnderscores([c] + t') == DropUnderscores([c] + t)
  {
    DropUnderscoresAppend([c], t');
    DropUnderscoresAppend([c], t);
  }

  /** The camel-case rewrite only inserts underscores. */
  lemma {:induction false} SplitCamelOnlyInserts(s: string)
    ensures DropUnderscores(SplitCamel(s)) == DropUnderscores(s)
  {
    if |s| >= 2 && (IsLower(s[0]) || IsDigit(s[0])) && IsUpper(s[1]) {
      var rest := s[2..];
      SplitCamelOnlyInserts(rest);
      assert SplitCamel(s) == [s[0]] + "_" + [s[1]] + SplitCamel(rest);
      DropUnderscoresInsertStep([s[0]], [s[1]], rest, SplitCamel(rest));
      assert s == [s[0]] + [s[1]] + rest;
    } else if s != [] {
      SplitCamelOnlyInserts(s[1..]);
      assert SplitCamel(s) == [s[0]] + SplitCamel(s[1..]);
      DropUnderscoresCons(s[0], s[1..], SplitCamel(s[1..]));
      assert s == [s[0]] + s[1..];
    }
  }

  /** The capital before the first lower-case letter of an acronym run starts a new word. */
  lemma SplitAcronymExample()
    ensures SplitAcronym("ABCd") == "AB_Cd"
  {
    assert SplitAcronym("Cd") == "Cd";
    assert SplitAcronym("BCd") == "B_Cd";
  }

  /** The acronym rewrite only inserts underscores. */
  lemma {:induction false} SplitAcronymOnlyInserts(s: string)
    ensures DropUnderscores(SplitAcronym(s)) == DropUnderscores(s)
  {
    if s != [] {
      var t := SplitAcronym(s[1..]);
      SplitAcronymOnlyInserts(s[1..]);
      if |s| >= 3 && IsUpper(s[0]) && IsUpper(s[1]) && IsLower(s[2]) {
        assert SplitAcronym(s) == [s[0]] + ("_" + t);
        assert ("_" + t)[1..] == t;
        DropUnderscoresCons(s[0], s[1..], "_" + t);
      } else {
        assert SplitAcronym(s) == [s[0]] + t;
        DropUnderscoresCons(s[0], s[1..], t);
      }
      assert s == [s[0]] + s[1..];
    }
  }

  lemma {:induction false} SplitCamelKeepsNoDoubleColon(s: string)
    requires NoDoubleColon(s)
    ensures NoDoubleColon(SplitCamel(s))
  {
    if |s| >= 2 && (IsLower(s[0]) || IsDigit(s[0])) && IsUpper(s[1]) {
      SplitCamelKeepsNoDoubleColon(s[2..]);
    } else if s != [] {
      SplitCamelKeepsNoDoubleColon(s[1..]);
      if |s| >= 2 {
        SplitCamelHead(s[1..]);
      }
    }
  }

  /** A colon-free prefix cannot start a "::". */
  lemma NoColonPrefix(a: string, b: string)
    requires forall i :: 0 <= i < |a| ==> a[i] != ':'
    requires NoDoubleColon(b)
    ensures NoDoubleColon(a + b)
  {
    forall i | 0 <= i < |a + b| - 1
      ensures !((a + b)[i] == ':' && (a + b)[i + 1] == ':')
    {
      if i >= |a| {
        assert (a + b)[i] == b[i - |a|] && (a + b)[i + 1] == b[i - |a| + 1];
      }
    }
  }

  lemma {:induction false} SplitAcronymKeepsNoDoubleColon(s: string)
    requires NoDoubleColon(s)
    ensures NoDoubleColon(SplitAcronym(s))
  {
    if s != [] {
      var rest := s[1..];
      assert NoDoubleColon(rest) by {
        forall i | 0 <= i < |rest| - 1 ensures !(rest[i] == ':' && rest[i + 1] == ':') {
          assert rest[i] == s[1 + i] && rest[i + 1] == s[2 + i];
        }
      }
      SplitAcronymKeepsNoDoubleColon(rest);
      var t := SplitAcronym(rest);
      if |s| >= 3 && IsUpper(s[0]) && IsUpper(s[1]) && IsLower(s[2]) {
        assert SplitAcronym(s) == [s[0]] + "_" + t;
        NoColonPrefix([s[0]] + "_", t);
      } else {
        assert SplitAcronym(s) == [s[0]] + t;
        if rest != [] {
          SplitAcronymHead(rest);
          assert !(s[0] == ':' && s[1] == ':');
        }
        forall i | 0 <= i < |[s[0]] + t| - 1
          ensures !(([s[0]] + t)[i] == ':' && ([s[0]] + t)[i + 1] == ':')
        {
          if i > 0 {
            assert ([s[0]] + t)[i] == t[i - 1] && ([s[0]] + t)[i + 1] == t[i];
          }
        }
      }
    }
  }

  lemma {:induction false} SplitCamelIdentity(s: string)
    requires NoUpper(s)
    ensures SplitCamel(s) == s
  {
    if s != [] {
      SplitCamelIdentity(s[1..]);
    }
  }

  lemma {:induction false} SplitAcronymIdentity(s: string)
    requires NoUpper(s)
    ensures SplitAcronym(s) == s
  {
    if s != [] {
      SplitAcronymIdentity(s[1..]);
    }
  }

  /** `underscore` is idempotent: its output is a fixed point of every rewrite. */
  lemma UnderscoreIdempotent(s: string)
    ensures Underscore(Underscore(s)) == Underscore(s)
  {
    var t := Underscore(s);
    assert NoUpper(t);
    ColonsToSlashIdentity(t);
    SplitAcronymIdentity(t);
    SplitCamelIdentity(t);
    assert DashesToUnderscores(t) == t;
    assert Downcase(t) == t;
  }

  // ---------------------------------------------------------------------------
  // String#camelize
  // ---------------------------------------------------------------------------

  /** `gsub(/\/(.?)/) { "::#{$1.upcase}" }`; `.` does not match a newline. */
  function SlashToScope(s: string): string {
    if s == [] then []
    else if s[0] == '/' then
      if |s| >= 2 && s[1] != '\n' then "::" + [UpcaseChar(s[1])] + SlashToScope(s[2..])
      else "::" + SlashToScope(s[1..])
    else [s[0]] + SlashToScope(s[1..])
  }

  /**
   * `gsub(/(?:^|_)(.)/) { $1.upcase }`.  `atLineStart` says whether `^`
   * matches at the current position: at the start of the string or right
   * after a newline.
   */
  function UpcaseWordStarts(s: string, atLineStart: bool): (r: string)
    ensures |r| <= |s|
    ensures s != [] ==> r != []
  {
    if s == [] then []
    else if atLineStart && s[0] != '\n' then [UpcaseChar(s[0])] + UpcaseWordStarts(s[1..], false)
    else if |s| >= 2 && s[0] == '_' && s[1] != '\n' then [UpcaseChar(s[1])] + UpcaseWordStarts(s[2..], false)
    else [s[0]] + UpcaseWordStarts(s[1..], s[0] == '\n')
  }

  /** `camelize` (leading capital). */
  function Camelize(s: string): (r: string)
    ensures s != [] ==> r != []
  {
    SlashToScopeNonEmpty(s);
    UpcaseWordStarts(SlashToScope(s), true)
  }

  /**
   * `camelize(false)` exactly as written: `s[0...1].downcase + s[1..-1]`.
   * On the empty string `s[1..-1]` is nil and `+` raises TypeError (None).
   */
  function CamelizeLowerAsWritten(s: string): Option<string> {
    var c := Camelize(s);
    if c == [] then None else Some([DowncaseChar(c[0])] + c[1..])
  }

  /** `camelize(false)` with the empty string mapped to itself. */
  function CamelizeLower(s: string): string {
    var c := Camelize(s);
    if c == [] then [] else [DowncaseChar(c[0])] + c[1..]
  }

  lemma SlashToScopeNonEmpty(s: string)
    ensures s != [] ==> SlashToScope(s) != []
  {
  }

  /** The as-written `camelize(false)` raises exactly on the empty string. */
  lemma CamelizeLowerAsWrittenFailsOnEmpty(s: string)
    ensures CamelizeLowerAsWritten(s).None? <==> s == []
    ensures s != [] ==> CamelizeLowerAsWritten(s) == Some(CamelizeLower(s))
  {
    SlashToScopeNonEmpty(s);
  }

  /**
   * `camelize(false)` is `camelize` with only the first character
   * lower-cased.
   */
  lemma CamelizeLowerIsCamelizeDowncasedFirst(s: string)
    ensures |CamelizeLower(s)| == |Camelize(s)|
    ensures s != [] ==> CamelizeLower(s)[0] == DowncaseChar(Camelize(s)[0])
    ensures forall i :: 1 <= i < |CamelizeLower(s)| ==> CamelizeLower(s)[i] == Camelize(s)[i]
  {
    SlashToScopeNonEmpty(s);
  }

  predicate Plain(s: string) {
    forall i :: 0 <= i < |s| ==> s[i] != '_' && s[i] != '/' && s[i] != '\n'
  }

  lemma {:induction false} SlashToScopeIdentity(s: string)
    requires Plain(s)
    ensures SlashToScope(s) == s
  {
    if s != [] {
      SlashToScopeIdentity(s[1..]);
    }
  }

  lemma {:induction false} UpcaseWordStartsIdentity(s: string)
    requires Plain(s)
    ensures UpcaseWordStarts(s, false) == s
  {
    if s != [] {
      UpcaseWordStartsIdentity(s[1..]);
    }
  }

  /**
   * Without '_', '/' and newlines, `camelize` only upcases the first
   * character.
   */
  lemma CamelizePlain(s: string)
    requires Plain(s) && s != []
    ensures Camelize(s) == [UpcaseChar(s[0])] + s[1..]
  {
    SlashToScopeIdentity(s);
    UpcaseWordStartsIdentity(s[1..]);
  }

  lemma {:induction false} SlashToScopeNoSlash(s: string)
    requires forall i :: 0 <= i < |s| ==> s[i] != '/'
    ensures SlashToScope(s) == s
  {
    if s != [] {
      SlashToScopeNoSlash(s[1..]);
    }
  }

  lemma CamelizeSnakeExample()
    ensures Camelize("row_id") == "RowId"
  {
    SlashToScopeNoSlash("row_id");
    assert UpcaseWordStarts("d", false) == "d";
    assert UpcaseWordStarts("_id", false) == "Id";
    assert UpcaseWordStarts("w_id", false) == "wId";
    assert UpcaseWordStarts("ow_id", false) == "owId";
  }

  /** A path segment becomes a scope: "/x" turns into "::X". */
  lemma CamelizePathExample()
    ensures Camelize("a/b") == "A::B"
  {
    assert SlashToScope("/b") == "::B";
    assert SlashToScope("a/b") == "a::B";
    assert UpcaseWordStarts("B", false) == "B";
    assert UpcaseWordStarts(":B", false) == ":B";
    assert UpcaseWordStarts("::B", false) == "::B";
  }

  /** Text without '/' is copied unchanged ahead of the rest of the rewrite. */
  lemma {:induction false} SlashToScopePrefix(a: string, b: string)
    requires forall i :: 0 <= i < |a| ==> a[i] != '/'
    ensures SlashToScope(a + b) == a + SlashToScope(b)
    decreases |a|
  {
    if a == [] {
      assert a + b == b;
    } else {
      assert (a + b)[0] == a[0];
      assert (a + b)[1..] == a[1..] + b;
      SlashToScopePrefix(a[1..], b);
    }
  }

  /** The first "/c" of a string becomes "::C", and the rewrite resumes after `c`. */
  lemma SlashToScopeStep(a: string, c: char, b: string)
    requires forall i :: 0 <= i < |a| ==> a[i] != '/'
    requires c != '\n'
    ensures SlashToScope(a + "/" + [c] + b) == a + "::" + [UpcaseChar(c)] + SlashToScope(b)
  {
    var t := "/" + [c] + b;
    SlashToScopePrefix(a, t);
    assert a + "/" + [c] + b == a + t;
    assert t[1] == c && t[2..] == b;
  }

  /** Words joined by '_', as in a snake_case name. */
  function JoinWords(ws: seq<string>): string {
    if ws == [] then []
    else if |ws| == 1 then ws[0]
    else ws[0] + "_" + JoinWords(ws[1..])
  }

  function Capitalize(w: string): string {
    if w == [] then [] else [UpcaseChar(w[0])] + w[1..]
  }

  /** The words, each with its first character upcased, run together. */
  function CapitalizeAll(ws: seq<string>): string {
    if ws == [] then [] else Capitalize(ws[0]) + CapitalizeAll(ws[1..])
  }

  /** Non-empty words without '_', '/' or newline. */
  predicate Words(ws: seq<string>) {
    forall i :: 0 <= i < |ws| ==> ws[i] != [] && Plain(ws[i])
  }

  lemma {:induction false} UpcasePlainPrefix(a: string, b: string)
    requires Plain(a)
    ensures UpcaseWordStarts(a + b, false) == a + UpcaseWordStarts(b, false)
    decreases |a|
  {
    if a == [] {
      assert a + b == b;
    } else {
      assert (a + b)[0] == a[0];
      assert (a + b)[1..] == a[1..] + b;
      UpcasePlainPrefix(a[1..], b);
    }
  }

  /** An '_' before a character that is no newline starts a word as `^` does. */
  lemma UnderscoreStartsWord(j: string)
    requires j != [] && j[0] != '\n'
    ensures UpcaseWordStarts("_" + j, false) == UpcaseWordStarts(j, true)
  {
    assert ("_" + j)[1] == j[0];
    assert ("_" + j)[2..] == j[1..];
  }

  lemma {:induction false} JoinWordsShape(ws: seq<string>)
    requires Words(ws) && ws != []
    ensures JoinWords(ws) != [] && JoinWords(ws)[0] == ws[0][0]
    ensures SlashToScope(JoinWords(ws)) == JoinWords(ws)
  {
    var w := ws[0];
    if |ws| == 1 {
      SlashToScopeIdentity(w);
    } else {
      JoinWordsShape(ws[1..]);
      var j := JoinWords(ws[1..]);
      assert JoinWords(ws) == (w + "_") + j;
      SlashToScopePrefix(w + "_", j);
    }
  }

  /** The first word of a line is capitalized; the rewrite goes on after it. */
  lemma UpcaseFirstWord(w: string, rest: string)
    requires w != [] && Plain(w)
    ensures UpcaseWordStarts(w + rest, true) == Capitalize(w) + UpcaseWordStarts(rest, false)
  {
    assert (w + rest)[0] == w[0];
    assert (w + rest)[1..] == w[1..] + rest;
    assert Plain(w[1..]);
    UpcasePlainPrefix(w[1..], rest);
  }

  lemma {:induction false} UpcaseJoinedWords(ws: seq<string>)
    requires Words(ws)
    ensures UpcaseWordStarts(JoinWords(ws), true) == CapitalizeAll(ws)
  {
    if ws != [] {
      var w := ws[0];
      if |ws| == 1 {
        UpcaseFirstWord(w, []);
        assert w + [] == w;
      } else {
        var j := JoinWords(ws[1..]);
        JoinWordsShape(ws[1..]);
        assert JoinWords(ws) == w + ("_" + j);
        UpcaseFirstWord(w, "_" + j);
        UnderscoreStartsWord(j);
        UpcaseJoinedWords(ws[1..]);
      }
    }
  }

  /**
   * `camelize` of snake_case words: the words with their first characters
   * upcased, run together ("row_id" gives "RowId").
   */
  lemma CamelizeWords(ws: seq<string>)
    requires Words(ws)
    ensures Camelize(JoinWords(ws)) == CapitalizeAll(ws)
  {
    if ws != [] {
      JoinWordsShape(ws);
    }
    UpcaseJoinedWords(ws);
  }

  // ---------------------------------------------------------------------------
  // Util.symbolize_keys and Util.camelize_keys
  // ---------------------------------------------------------------------------

  predicate IsContainer(v: Value) {
    v.Arr? || v.Hash?
  }

  /** The key rewrite of `symbolize_keys`: String keys become Symbols. */
  function SymbolKey(k: Value): (r: Value)
    ensures !r.Str?
  {
    if k.Str? then Sym(k.s) else k
  }

  /** `Util.symbolize_keys` (lib/ext.rb) and `Socrata#symbolize_keys` (lib/socrata.rb). */
  function SymbolizeKeys(v: Value): (r: Value)
    ensures !IsContainer(v) ==> r == v
    ensures v.Arr? ==> r.Arr? && |r.elems| == |v.elems|
    ensures v.Hash? ==> r.Hash? && UniqueKeys(r.entries)
  {
    match v
    case Arr(es) =>
      Arr(seq(|es|, i requires 0 <= i < |es| =>
        if IsContainer(es[i]) then SymbolizeKeys(es[i]) else es[i]))
    case Hash(kvs) =>
      var xs := seq(|kvs|, i requires 0 <= i < |kvs| =>
        (SymbolKey(kvs[i].0), if IsContainer(kvs[i].1) then SymbolizeKeys(kvs[i].1) else kvs[i].1));
      PutAllKeepsUnique([], xs);
      Hash(PutAll([], xs))
    case _ => v
  }

  /** The pairs `symbolize_keys` assigns, in order, for a hash with entries `kvs`. */
  function SymbolizedPairs(kvs: Entries): (r: Entries)
    ensures |r| == |kvs|
  {
    seq(|kvs|, i requires 0 <= i < |kvs| =>
      (SymbolKey(kvs[i].0), if IsContainer(kvs[i].1) then SymbolizeKeys(kvs[i].1) else kvs[i].1))
  }

  /** No hash anywhere inside `v` has a String key. */
  predicate NoStringKeys(v: Value) {
    match v
    case Arr(es) => forall i :: 0 <= i < |es| ==> NoStringKeys(es[i])
    case Hash(kvs) => forall i :: 0 <= i < |kvs| ==> !kvs[i].0.Str? && NoStringKeys(kvs[i].1)
    case _ => true
  }

  /** Scalars come back unchanged; arrays keep their length and order. */
  lemma SymbolizeKeysShape(v: Value)
    ensures !IsContainer(v) ==> SymbolizeKeys(v) == v
    ensures v.Arr? ==> SymbolizeKeys(v).Arr? && |SymbolizeKeys(v).elems| == |v.elems|
    ensures v.Arr? ==> forall i :: 0 <= i < |v.elems| ==>
      SymbolizeKeys(v).elems[i] == SymbolizeKeys(v.elems[i])
    ensures v.Hash? ==> SymbolizeKeys(v).Hash? && UniqueKeys(SymbolizeKeys(v).entries)
  {
    if v.Hash? {
      assert SymbolizeKeys(v).entries == PutAll([], SymbolizedPairs(v.entries));
      PutAllKeepsUnique([], SymbolizedPairs(v.entries));
    }
  }

  /**
   * Looking a key up in a symbolized hash finds the symbolized value of the
   * LAST entry whose key symbolizes to it.
   */
  lemma SymbolizeKeysLookup(kvs: Entries, k: Value)
    ensures Get(SymbolizeKeys(Hash(kvs)).entries, k) == LastValue(SymbolizedPairs(kvs), k)
  {
    assert SymbolizeKeys(Hash(kvs)).entries == PutAll([], SymbolizedPairs(kvs));
    GetPutAll([], SymbolizedPairs(kvs), k);
  }

  /** When no two keys collide after symbolizing, entries keep their places. */
  lemma SymbolizeKeysNoCollision(kvs: Entries)
    requires forall i, j :: 0 <= i < j < |kvs| ==> SymbolKey(kvs[i].0) != SymbolKey(kvs[j].0)
    ensures SymbolizeKeys(Hash(kvs)) == Hash(SymbolizedPairs(kvs))
  {
    var xs := SymbolizedPairs(kvs);
    assert SymbolizeKeys(Hash(kvs)) == Hash(PutAll([], xs));
    assert [] + xs == xs;
    assert UniqueKeys(xs) by {
      forall i, j | 0 <= i < j < |xs| ensures xs[i].0 != xs[j].0 {
        assert xs[i].0 == SymbolKey(kvs[i].0) && xs[j].0 == SymbolKey(kvs[j].0);
      }
    }
    PutAllDistinct([], xs);
  }

  /** Every pair of the result of `PutAll(acc, xs)` is a pair of `acc` or of `xs`. */
  lemma {:induction false} PutAllValuesFrom(acc: Entries, xs: Entries)
    ensures forall p :: p in PutAll(acc, xs) ==> p in acc || p in xs
    decreases |xs|
  {
    if xs != [] {
      var acc' := Put(acc, xs[0].0, xs[0].1);
      PutAllValuesFrom(acc', xs[1..]);
      PutEntryFrom(acc, xs[0].0, xs[0].1);
    }
  }

  lemma {:induction false} PutEntryFrom(h: Entries, k: Value, v: Value)
    ensures forall p :: p in Put(h, k, v) ==> p == (k, v) || p in h
  {
    if h != [] && h[0].0 != k {
      PutEntryFrom(h[1..], k, v);
    }
  }

  /** No String key is left at any depth. */
  lemma {:induction false} SymbolizeKeysNoStringKeys(v: Value)
    ensures NoStringKeys(SymbolizeKeys(v))
    decreases v
  {
    match v
    case Arr(es) =>
      forall i | 0 <= i < |es| ensures NoStringKeys(SymbolizeKeys(v).elems[i]) {
        if IsContainer(es[i]) { SymbolizeKeysNoStringKeys(es[i]); }
      }
    case Hash(kvs) =>
      var xs := SymbolizedPairs(kvs);
      var r := PutAll([], xs);
      assert SymbolizeKeys(v).entries == r;
      forall i | 0 <= i < |r| ensures !r[i].0.Str? && NoStringKeys(r[i].1) {
        PutAllValuesFrom([], xs);
        assert r[i] in xs;
        var j :| 0 <= j < |xs| && r[i] == xs[j];
        if IsContainer(kvs[j].1) { SymbolizeKeysNoStringKeys(kvs[j].1); }
      }
    case _ =>
  }

  /** A value without String keys is a fixed point. */
  lemma {:induction false} SymbolizeKeysFixedPoint(v: Value)
    requires NoStringKeys(v) && UniqueHashKeys(v)
    ensures SymbolizeKeys(v) == v
    decreases v
  {
    match v
    case Arr(es) =>
      forall i | 0 <= i < |es| ensures SymbolizeKeys(v).elems[i] == es[i] {
        if IsContainer(es[i]) { SymbolizeKeysFixedPoint(es[i]); }
      }
    case Hash(kvs) =>
      var xs := SymbolizedPairs(kvs);
      forall i | 0 <= i < |kvs| ensures xs[i] == kvs[i] {
        if IsContainer(kvs[i].1) { SymbolizeKeysFixedPoint(kvs[i].1); }
      }
      assert xs == kvs;
      assert [] + xs == xs;
      PutAllDistinct([], xs);
    case _ =>
  }

  /** Every hash inside `v` has distinct keys (true of anything Ruby builds). */
  predicate UniqueHashKeys(v: Value) {
    match v
    case Arr(es) => forall i :: 0 <= i < |es| ==> UniqueHashKeys(es[i])
    case Hash(kvs) => UniqueKeys(kvs) && forall i :: 0 <= i < |kvs| ==> UniqueHashKeys(kvs[i].1)
    case _ => true
  }

  lemma {:induction false} SymbolizeKeysUniqueHashKeys(v: Value)
    ensures UniqueHashKeys(SymbolizeKeys(v))
    decreases v
  {
    match v
    case Arr(es) =>
      forall i | 0 <= i < |es| ensures UniqueHashKeys(SymbolizeKeys(v).elems[i]) {
        if IsContainer(es[i]) { SymbolizeKeysUniqueHashKeys(es[i]); }
      }
    case Hash(kvs) =>
      var xs := SymbolizedPairs(kvs);
      var r := PutAll([], xs);
      assert SymbolizeKeys(v).entries == r;
      PutAllKeepsUnique([], xs);
      forall i | 0 <= i < |r| ensures UniqueHashKeys(r[i].1) {
        PutAllValuesFrom([], xs);
        assert r[i] in xs;
        var j :| 0 <= j < |xs| && r[i] == xs[j];
        if IsContainer(kvs[j].1) { SymbolizeKeysUniqueHashKeys(kvs[j].1); }
      }
    case _ =>
  }

  /** Symbolizing twice is the same as symbolizing once. */
  lemma SymbolizeKeysIdempotent(v: Value)
    ensures SymbolizeKeys(SymbolizeKeys(v)) == SymbolizeKeys(v)
  {
    SymbolizeKeysNoStringKeys(v);
    SymbolizeKeysUniqueHashKeys(v);
    SymbolizeKeysFixedPoint(SymbolizeKeys(v));
  }

  /**
   * The key rewrite of `camelize_keys`: a String key is camelized, a Symbol
   * key becomes the String `key.to_s.camelize(false)`.
   */
  function CamelKey(k: Value): (r: Value)
    ensures k.Str? ==> r == Str(Camelize(k.s))
    ensures k.Sym? ==> r == Str(CamelizeLower(k.name))
    ensures !(k.Str? || k.Sym?) ==> r == k
  {
    match k
    case Str(s) => Str(Camelize(s))
    case Sym(s) => Str(CamelizeLower(s))
    case _ => k
  }

  function CamelizedPairs(kvs: Entries): (r: Entries)
    ensures |r| == |kvs|
  {
    seq(|kvs|, i requires 0 <= i < |kvs| =>
      (CamelKey(kvs[i].0), if IsContainer(kvs[i].1) then CamelizeKeys(kvs[i].1) else kvs[i].1))
  }

  /** `Util.camelize_keys` */
  function CamelizeKeys(v: Value): (r: Value)
    ensures !IsContainer(v) ==> r == v
    ensures v.Arr? ==> r.Arr? && |r.elems| == |v.elems|
    ensures v.Hash? ==> r.Hash? && UniqueKeys(r.entries)
  {
    match v
    case Arr(es) =>
      Arr(seq(|es|, i requires 0 <= i < |es| =>
        if IsContainer(es[i]) then CamelizeKeys(es[i]) else es[i]))
    case Hash(kvs) =>
      var xs := seq(|kvs|, i requires 0 <= i < |kvs| =>
        (CamelKey(kvs[i].0), if IsContainer(kvs[i].1) then CamelizeKeys(kvs[i].1) else kvs[i].1));
      PutAllKeepsUnique([], xs);
      Hash(PutAll([], xs))
    case _ => v
  }

  /** No hash anywhere inside `v` has a Symbol key. */
  predicate NoSymbolKeys(v: Value) {
    match v
    case Arr(es) => forall i :: 0 <= i < |es| ==> NoSymbolKeys(es[i])
    case Hash(kvs) => forall i :: 0 <= i < |kvs| ==> !kvs[i].0.Sym? && NoSymbolKeys(kvs[i].1)
    case _ => true
  }

  /** Scalars come back unchanged; arrays keep length and order. */
  lemma CamelizeKeysShape(v: Value)
    ensures !IsContainer(v) ==> CamelizeKeys(v) == v
    ensures v.Arr? ==> CamelizeKeys(v).Arr? && |CamelizeKeys(v).elems| == |v.elems|
    ensures v.Arr? ==> forall i :: 0 <= i < |v.elems| ==>
      CamelizeKeys(v).elems[i] == CamelizeKeys(v.elems[i])
  {
  }

  /** Lookup in a camelized hash finds the last entry whose key camelizes to it. */
  lemma CamelizeKeysLookup(kvs: Entries, k: Value)
    ensures Get(CamelizeKeys(Hash(kvs)).entries, k) == LastValue(CamelizedPairs(kvs), k)
  {
    assert CamelizeKeys(Hash(kvs)).entries == PutAll([], CamelizedPairs(kvs));
    GetPutAll([], CamelizedPairs(kvs), k);
  }

  /** No Symbol key is left at any depth: every Symbol key became a String. */
  lemma {:induction false} CamelizeKeysNoSymbolKeys(v: Value)
    ensures NoSymbolKeys(CamelizeKeys(v))
    decreases v
  {
    match v
    case Arr(es) =>
      forall i | 0 <= i < |es| ensures NoSymbolKeys(CamelizeKeys(v).elems[i]) {
        if IsContainer(es[i]) { CamelizeKeysNoSymbolKeys(es[i]); }
      }
    case Hash(kvs) =>
      var xs := CamelizedPairs(kvs);
      var r := PutAll([], xs);
      assert CamelizeKeys(v).entries == r;
      forall i | 0 <= i < |r| ensures !r[i].0.Sym? && NoSymbolKeys(r[i].1) {
        PutAllValuesFrom([], xs);
        assert r[i] in xs;
        var j :| 0 <= j < |xs| && r[i] == xs[j];
        if IsContainer(kvs[j].1) { CamelizeKeysNoSymbolKeys(kvs[j].1); }
      }
    case _ =>
  }
}
