/** The text of a learned rule: printing one and parsing it back. */
module RuleDefinition {
  import opened Collections
  import opened Digits
  import opened DirectoryRules

  /******* Text *******/

  /** Unicode white space. */
  predicate IsSpace(c: char) {
    var n := c as int;
    9 <= n <= 13 || n == 0x20 || n == 0x85 || n == 0xA0 || n == 0x1680 || 0x2000 <= n <= 0x200A || n == 0x2028 ||
        n == 0x2029 ||
    n == 0x202F || n == 0x205F || n == 0x3000
  }

  function TrimLeft(s: string): (r: string)
    ensures |r| <= |s|
  {
    if s != "" && IsSpace(s[0]) then TrimLeft(s[1..]) else s
  }

  function TrimRight(s: string): (r: string)
    ensures |r| <= |s|
  {
    if s != "" && IsSpace(s[|s| - 1]) then TrimRight(s[..|s| - 1]) else s
  }

  function Trim(s: string): string {
    TrimRight(TrimLeft(s))
  }

  function Lines(s: string): (r: seq<string>)
    ensures r != []
  {
    if s == "" then [""]
    else
      var rest := Lines(s[1..]);
      if s[0] == '\n' then [""] + rest else [[s[0]] + rest[0]] + rest[1..]
  }

  /** The digits up to the first character that is none. */
  function ParseInt(s: string, n: Int64): Int64
    decreases |s|
  {
    if s == "" || !IsDigit(s[0]) then n else ParseInt(s[1..], Wrap(n * 10 + (s[0] as int - '0' as int)))
  }

  function RoleName(r: Role): string {
    match r
    case UnknownRole => "unknown"
    case Raw => "raw_source"
    case FormalArchive => "formal_archive"
    case ProjectWork => "project_work"
    case Temporary => "temporary"
    case Unorganized => "unorganized"
    case Backup => "backup"
    case Cache => "cache_derived"
    case Sensitive => "sensitive"
    case System => "system_application"
  }

  /** Lower case, as far as it can yield ASCII: the Kelvin sign and the dotted capital I have ASCII lower-case forms. */
  function LowerChar(c: char): char {
    if 'A' <= c <= 'Z' then (c as int + 32) as char
    else if c as int == 0x212A then 'k'
    else if c as int == 0x130 then 'i'
    else c
  }

  function Lower(s: string): string {
    if s == "" then "" else [LowerChar(s[0])] + Lower(s[1..])
  }

  function ParseRole(text: string): Role {
    var s := Lower(text);
    if s == "system" || s == "system_application" then System
    else if s == "backup" then Backup
    else if s == "cache" || s == "cache_derived" then Cache
    else if s == "temporary" then Temporary
    else if s == "raw" || s == "raw_source" then Raw
    else if s == "formal_archive" then FormalArchive
    else if s == "project" || s == "project_work" then ProjectWork
    else if s == "unorganized" then Unorganized
    else if s == "sensitive" then Sensitive
    else UnknownRole
  }

  function BuildDefinition(name: string, role: Role, authority: Int64): string {
    "match:" + "\n" + ("  segment_contains: \"" + name + "\"" + "\n" +
        ("effect:" + "\n" + ("  role: " + RoleName(role) + "\n" +
      ("  authority: " + Number(authority)))))
  }

  /******* The parser *******/

  function Unquote(text: string): string {
    var s := Trim(text);
    if |s| >= 2 && s[0] == s[|s| - 1] && (s[0] == '"' || s[0] == '\'') then s[1..|s| - 1] else s
  }

  datatype Draft = Draft(term: string, hasTerm: bool, role: string, hasRole: bool, authority: Int64)

  const NOTHING: Draft := Draft("", false, "", false, 0)

  const TERM: string := "segment_contains:"
  const ROLE: string := "role:"
  const AUTHORITY: string := "authority:"

  datatype Kind = Nothing | TermKind | RoleKind | AuthorityKind

  function KindOf(line: string): Kind {
    if line == "" || line[0] == '#' || line == "match:" || line == "effect:" then Nothing
    else if TERM <= line then TermKind
    else if ROLE <= line then RoleKind
    else if AUTHORITY <= line then AuthorityKind
    else Nothing
  }

  function After(line: string, key: string): string {
    if key <= line then Trim(line[|key|..]) else line
  }

  function ReadLine(d: Draft, raw: string): Draft {
    var line := Trim(raw);
    match KindOf(line)
    case Nothing => d
    case TermKind => (var term := Unquote(After(line, TERM)); d.(term := term, hasTerm := d.hasTerm || term != ""))
    case RoleKind => d.(role := Unquote(After(line, ROLE)), hasRole := true)
    case AuthorityKind => d.(authority := ParseInt(After(line, AUTHORITY), 0))
  }

  function ReadLines(d: Draft, lines: seq<string>): Draft
    decreases |lines|
  {
    if lines == [] then d else ReadLines(ReadLine(d, lines[0]), lines[1..])
  }

  function Finish(d: Draft): Option<Signal> {
    if !d.hasTerm || !d.hasRole || ParseRole(d.role).UnknownRole? then None
    else Some(Signal(ParseRole(d.role), d.authority, [d.term]))
  }

  function Parse(definition: string): Option<Signal> {
    Finish(ReadLines(NOTHING, Lines(definition)))
  }

  method ParseDirectorySignal(definition: string) returns (signal: Option<Signal>)
    ensures signal == Parse(definition)
  {
    var lines := Lines(definition);
    var d := NOTHING;
    for i := 0 to |lines|
      invariant ReadLines(d, lines[i..]) == ReadLines(NOTHING, lines)
    {
      assert lines[i..][0] == lines[i] && lines[i..][1..] == lines[i + 1..];
      d := ReadLine(d, lines[i]);
    }
    return Finish(d);
  }

  /******* What is printed is read back *******/

  lemma {:induction false} LinesThen(a: string, rest: string)
    requires '\n' !in a
    ensures Lines(a + "\n" + rest) == [a] + Lines(rest)
  {
    var s := a + "\n" + rest;
    if a == "" {
      assert s[0] == '\n' && s[1..] == rest;
    } else {
      assert s[0] == a[0] && s[1..] == a[1..] + "\n" + rest && a[0] in a;
      LinesThen(a[1..], rest);
      assert [a[0]] + a[1..] == a;
    }
  }

  lemma {:induction false} OneLine(a: string)
    requires '\n' !in a
    ensures Lines(a) == [a]
  {
    if a != "" {
      assert a[0] in a;
      OneLine(a[1..]);
      assert [a[0]] + a[1..] == a;
    }
  }

  lemma {:induction false} TrimCore(lead: string, core: string)
    requires (forall c <- lead :: IsSpace(c)) && core != "" && !IsSpace(core[0]) && !IsSpace(core[|core| - 1])
    ensures Trim(lead + core) == core
  {
    if lead == "" {
      assert lead + core == core;
    } else {
      assert (lead + core)[0] == lead[0] && lead[0] in lead && (lead + core)[1..] == lead[1..] + core;
      TrimCore(lead[1..], core);
    }
  }

  lemma {:induction false} ParseOneMore(s: string, c: char, n: Int64)
    requires AllDigits(s) && IsDigit(c)
    ensures ParseInt(s + [c], n) == Wrap(ParseInt(s, n) * 10 + (c as int - '0' as int))
    decreases |s|
  {
    if s == "" {
      assert s + [c] == [c] && [c][1..] == "";
    } else {
      assert (s + [c])[1..] == s[1..] + [c] && s[0] in s;
      assert forall d <- s[1..] :: d in s;
      ParseOneMore(s[1..], c, Wrap(n * 10 + (s[0] as int - '0' as int)));
    }
  }

  lemma {:induction false} DecimalParses(n: nat)
    requires n < TWO_63
    ensures ParseInt(Decimal(n), 0) == n
  {
    if n < 10 {
      assert Decimal(n)[1..] == "";
    } else {
      DecimalParses(n / 10);
      ParseOneMore(Decimal(n / 10), ('0' as int + n % 10) as char, 0);
    }
  }

  lemma DigitsAreSolid(s: string)
    requires s != "" && AllDigits(s)
    ensures !IsSpace(s[0]) && !IsSpace(s[|s| - 1])
  {
    assert s[0] in s && s[|s| - 1] in s;
  }

  /** `key: value` indented by two spaces, whose value neither starts nor ends with a space. */
  lemma KeyedLine(key: string, value: string)
    requires key != "" && !IsSpace(key[0]) && value != "" && !IsSpace(value[0]) && !IsSpace(value[|value| - 1])
    ensures Trim("  " + key + " " + value) == key + " " + value
    ensures key <= key + " " + value && After(key + " " + value, key) == value
  {
    assert "  " + key + " " + value == "  " + (key + " " + value);
    TrimCore("  ", key + " " + value);
    assert (key + " " + value)[|key|..] == " " + value;
    TrimCore(" ", value);
  }

  /** A key is told apart from the others by its first character. */
  lemma KeyKinds(value: string)
    ensures KindOf(TERM + " " + value) == TermKind
    ensures KindOf(ROLE + " " + value) == RoleKind
    ensures KindOf(AUTHORITY + " " + value) == AuthorityKind
  {
    OtherKey(TERM, value, "match:");
    OtherKey(TERM, value, "effect:");
    OtherKey(ROLE, value, "match:");
    OtherKey(ROLE, value, "effect:");
    OtherKey(ROLE, value, TERM);
    OtherKey(AUTHORITY, value, "match:");
    OtherKey(AUTHORITY, value, "effect:");
    OtherKey(AUTHORITY, value, TERM);
    OtherKey(AUTHORITY, value, ROLE);
  }

  lemma OtherKey(key: string, value: string, other: string)
    requires key != "" && other != "" && key[0] != other[0]
    ensures key <= key + " " + value && !(other <= key + " " + value) && key + " " + value != other
    ensures (key + " " + value)[0] == key[0]
  {
  }

  /** A quoted term is read without its quotes, even if it is empty. */
  lemma TermLine(d: Draft, name: string)
    ensures ReadLine(d, "  segment_contains: \"" + name + "\"") == d.(term := name, hasTerm := d.hasTerm || name != "")
  {
    var quoted := "\"" + name + "\"";
    assert "  segment_contains: \"" + name + "\"" == "  " + TERM + " " + quoted;
    QuotesComeOff(name);
    QuotedLine(d, name, quoted);
  }

  lemma QuotedLine(d: Draft, name: string, quoted: string)
    requires quoted != "" && !IsSpace(quoted[0]) && !IsSpace(quoted[|quoted| - 1]) && Unquote(quoted) == name
    ensures ReadLine(d, "  " + TERM + " " + quoted) == d.(term := name, hasTerm := d.hasTerm || name != "")
  {
    KeyedLine(TERM, quoted);
    KeyKinds(quoted);
  }

  lemma QuotesComeOff(name: string)
    ensures Unquote("\"" + name + "\"") == name
  {
    var quoted := "\"" + name + "\"";
    TrimCore("", quoted);
    assert "" + quoted == quoted && quoted[1..|quoted| - 1] == name;
  }

  /** Lower-case letters and underscores only. */
  predicate IsWord(s: string) {
    s != "" && forall i :: 0 <= i < |s| ==> 'a' <= s[i] <= 'z' || s[i] == '_'
  }

  lemma RoleNameIsWord(role: Role)
    ensures IsWord(RoleName(role))
  {
    match role {
      case UnknownRole =>
      case Raw =>
      case FormalArchive =>
      case ProjectWork =>
      case Temporary =>
      case Unorganized =>
      case Backup =>
      case Cache =>
      case Sensitive =>
      case System =>
    }
  }

  lemma {:induction false} LowerKeeps(s: string)
    requires forall i :: 0 <= i < |s| ==> 'a' <= s[i] <= 'z' || s[i] == '_'
    ensures Lower(s) == s
  {
    if s != "" { LowerKeeps(s[1..]); }
  }

  lemma RoleNameReads(role: Role)
    ensures ParseRole(RoleName(role)) == role
  {
    RoleNameIsWord(role);
    LowerKeeps(RoleName(role));
    WordReads(role, RoleName(role));
  }

  lemma WordReads(role: Role, s: string)
    requires s == RoleName(role) && Lower(s) == s
    ensures ParseRole(s) == role
  {
  }

  lemma RoleLine(d: Draft, role: Role)
    ensures ReadLine(d, "  role: " + RoleName(role)) == d.(role := RoleName(role), hasRole := true)
  {
    RoleNameIsWord(role);
    WordLine(d, RoleName(role));
  }

  lemma WordLine(d: Draft, word: string)
    requires IsWord(word)
    ensures ReadLine(d, "  role: " + word) == d.(role := word, hasRole := true)
  {
    assert "  role: " + word == "  " + ROLE + " " + word;
    KeyedLine(ROLE, word);
    KeyKinds(word);
    WordsAreBare(word);
  }

  lemma WordsAreBare(word: string)
    requires IsWord(word)
    ensures Unquote(word) == word
  {
    TrimCore("", word);
    assert "" + word == word;
  }

  lemma AuthorityLine(d: Draft, authority: Int64)
    ensures ReadLine(d, "  authority: " + Number(authority)) == d.(authority := if authority < 0 then 0 else authority)
    ensures '\n' !in Number(authority)
  {
    var n: int := authority;
    var digits := Decimal(if n < 0 then -n else n);
    DigitsAreSolid(digits);
    NumberLine(d, Number(authority));
    assert "  authority: " + Number(authority) == "  " + AUTHORITY + " " + Number(authority);
    if authority >= 0 { DecimalParses(authority); }
  }

  lemma NumberLine(d: Draft, text: string)
    requires text != "" && !IsSpace(text[0]) && !IsSpace(text[|text| - 1])
    ensures ReadLine(d, "  " + AUTHORITY + " " + text) == d.(authority := ParseInt(text, 0))
  {
    KeyedLine(AUTHORITY, text);
    KeyKinds(text);
  }

  lemma NoBreaks(name: string, role: Role, authority: Int64)
    requires '\n' !in name
    ensures '\n' !in "  segment_contains: \"" + name + "\""
    ensures '\n' !in "  role: " + RoleName(role)
    ensures '\n' !in "  authority: " + Number(authority)
  {
    RoleNameIsWord(role);
    AuthorityLine(NOTHING, authority);
  }

  lemma DefinitionLines(name: string, role: Role, authority: Int64)
    requires '\n' !in name
    ensures Lines(BuildDefinition(name, role, authority)) ==
      ["match:", "  segment_contains: \"" + name + "\"", "effect:", "  role: " + RoleName(role),
          "  authority: " + Number(authority)]
  {
    var term, last := "  segment_contains: \"" + name + "\"", "  authority: " + Number(authority);
    var tail := "  role: " + RoleName(role) + "\n" + last;
    NoBreaks(name, role, authority);
    OneLine(last);
    LinesThen("  role: " + RoleName(role), last);
    LinesThen("effect:", tail);
    LinesThen(term, "effect:" + "\n" + tail);
    LinesThen("match:", term + "\n" + ("effect:" + "\n" + tail));
  }

  lemma KeywordLines(d: Draft)
    ensures ReadLine(d, "match:") == d && ReadLine(d, "effect:") == d
  {
    TrimCore("", "match:");
    TrimCore("", "effect:");
    assert "" + "match:" == "match:" && "" + "effect:" == "effect:";
  }

  lemma FiveLines(d: Draft, lines: seq<string>)
    requires |lines| == 5
    ensures ReadLines(d, lines) ==
      ReadLine(ReadLine(ReadLine(ReadLine(ReadLine(d, lines[0]), lines[1]), lines[2]), lines[3]), lines[4])
  {
    var d1 := ReadLine(d, lines[0]);
    var d2 := ReadLine(d1, lines[1]);
    var d3 := ReadLine(d2, lines[2]);
    var d4 := ReadLine(d3, lines[3]);
    assert lines[1..][1..] == lines[2..] && lines[2..][1..] == lines[3..] && lines[3..][1..] == lines[4..] &&
        lines[4..][1..] == [];
    assert ReadLines(d4, lines[4..]) == ReadLine(d4, lines[4]);
    assert ReadLines(d3, lines[3..]) == ReadLines(d4, lines[4..]);
    assert ReadLines(d2, lines[2..]) == ReadLines(d3, lines[3..]);
    assert ReadLines(d1, lines[1..]) == ReadLines(d2, lines[2..]);
  }

  /** What the five lines leave behind. */
  lemma DefinitionReads(name: string, role: Role, authority: Int64)
    requires '\n' !in name
    ensures ReadLines(NOTHING, Lines(BuildDefinition(name, role, authority))) ==
            Draft(name, name != "", RoleName(role), true, if authority < 0 then 0 else authority)
  {
    var lines := Lines(BuildDefinition(name, role, authority));
    DefinitionLines(name, role, authority);
    FiveLines(NOTHING, lines);
    KeywordLines(NOTHING);
    TermLine(NOTHING, name);
    var d1 := NOTHING.(term := name, hasTerm := name != "");
    KeywordLines(d1);
    RoleLine(d1, role);
    AuthorityLine(d1.(role := RoleName(role), hasRole := true), authority);
  }

  /** Nothing the parser reads contains a line break. */
  lemma {:induction false} LinesHaveNoBreak(s: string)
    ensures forall i :: 0 <= i < |Lines(s)| ==> '\n' !in Lines(s)[i]
  {
    if s != "" { LinesHaveNoBreak(s[1..]); }
  }

  lemma {:induction false} TrimmedIsPart(s: string)
    ensures forall c <- TrimRight(s) :: c in s
    ensures forall c <- TrimLeft(s) :: c in s
    decreases |s|
  {
    if s != "" {
      TrimmedIsPart(s[1..]);
      TrimmedIsPart(s[..|s| - 1]);
    }
  }

  lemma TrimIsPart(s: string, c: char)
    requires c in Trim(s)
    ensures c in s
  {
    TrimmedIsPart(s);
    TrimmedIsPart(TrimLeft(s));
  }

  lemma TermIsPart(raw: string)
    ensures forall c <- Unquote(After(Trim(raw), TERM)) :: c in raw
  {
    var line := Trim(raw);
    var value := After(line, TERM);
    forall c | c in Unquote(value) ensures c in raw {
      assert c in Trim(value);
      TrimIsPart(value, c);
      if TERM <= line {
        TrimIsPart(line[|TERM|..], c);
        assert c in line[|TERM|..];
      }
      assert c in line;
      TrimIsPart(raw, c);
    }
  }

  lemma {:induction false} TermHasNoBreak(d: Draft, lines: seq<string>)
    requires '\n' !in d.term && forall i :: 0 <= i < |lines| ==> '\n' !in lines[i]
    ensures '\n' !in ReadLines(d, lines).term
    decreases |lines|
  {
    if lines != [] {
      TermIsPart(lines[0]);
      TermHasNoBreak(ReadLine(d, lines[0]), lines[1..]);
    }
  }

  /** A printed rule parses back to the same term, role and authority if and only if the name is a
      non-empty line, the role is known and the authority is not negative. */
  lemma DefinitionRoundTrips(name: string, role: Role, authority: Int64)
    ensures Parse(BuildDefinition(name, role, authority)) == Some(Signal(role, authority, [name])) <==>
            name != "" && '\n' !in name && !role.UnknownRole? && authority >= 0
  {
    var definition := BuildDefinition(name, role, authority);
    if '\n' in name {
      LinesHaveNoBreak(definition);
      TermHasNoBreak(NOTHING, Lines(definition));
      var d := ReadLines(NOTHING, Lines(definition));
      assert Parse(definition).Some? ==> Parse(definition).value.terms[0] == d.term != name;
    } else {
      DefinitionReads(name, role, authority);
      RoleNameReads(role);
    }
  }
}
