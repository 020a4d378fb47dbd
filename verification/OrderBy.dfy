// The drilldown ORDER BY clause: cutting an expression at its top-level commas, putting the
// direction on the last term, and the row sort that must agree with the clause. The walker is
// characterised by where it cuts, the resolved clause by its terms, and the row sort by the order
// those terms ask for. Expressions are text: what the database makes of the health expression is
// HealthSort's subject.
module OrderBy {
  import opened Vocabulary
  import opened Sequences

  // ---- cutting at top-level commas ----------------------------------------

  // Open parentheses after reading s; a stray closing one is ignored.
  function Depth(s: string): nat {
    if s == "" then 0 else
    var d, c := Depth(s[..|s| - 1]), s[|s| - 1];
    if c == '(' then d + 1 else if c == ')' && d > 0 then d - 1 else d
  }

  // The pieces completed while reading s, and the one being read.
  function Pieces(s: string): (seq<string>, string) {
    if s == "" then ([], "") else
    var init, c := s[..|s| - 1], s[|s| - 1];
    var p := Pieces(init);
    if c == ',' && Depth(init) == 0 then (p.0 + [p.1], "") else (p.0, p.1 + [c])
  }

  function RawTerms(s: string): seq<string> {
    var p := Pieces(s);
    if p.1 != "" then p.0 + [p.1] else p.0
  }

  predicate IsSpace(c: char) {
    c in {' ', '\t', '\n', '\r'}
  }

  function Strip(s: string): string {
    if s == "" then s else
    if IsSpace(s[0]) then Strip(s[1..]) else
    if IsSpace(s[|s| - 1]) then Strip(s[..|s| - 1]) else s
  }

  function Terms(s: string): seq<string> {
    Map(Strip, RawTerms(s))
  }

  method SplitTopLevelCommas(expr: string) returns (parts: seq<string>)
    ensures parts == Terms(expr)
  {
    parts := [];
    var depth, buf := 0, "";
    for i := 0 to |expr|
      invariant depth == Depth(expr[..i])
      invariant parts == Map(Strip, Pieces(expr[..i]).0)
      invariant buf == Pieces(expr[..i]).1
    {
      var ch := expr[i];
      assert expr[..i + 1][..i] == expr[..i];
      if ch == '(' {
        depth := depth + 1;
      } else if ch == ')' {
        depth := if depth > 0 then depth - 1 else 0;
      }
      if ch == ',' && depth == 0 {
        parts := parts + [Strip(buf)];
        buf := "";
        continue;
      }
      buf := buf + [ch];
    }
    assert expr[..|expr|] == expr;
    if buf != "" {
      parts := parts + [Strip(buf)];
    }
  }

  // A comma outside every parenthesis.
  predicate IsCut(s: string, j: nat)
    requires j < |s|
  {
    s[j] == ',' && Depth(s[..j]) == 0
  }

  function Terminated(ps: seq<string>): string {
    if ps == [] then "" else Terminated(ps[..|ps| - 1]) + ps[|ps| - 1] + ","
  }

  // Where the comma behind piece k stands.
  function EndOf(ps: seq<string>, k: nat): nat
    requires k < |ps|
  {
    |Terminated(ps[..k])| + |ps[k]|
  }

  // Position j holds the comma that ends one of the pieces.
  ghost predicate Separates(ps: seq<string>, j: nat) {
    exists k: nat :: k < |ps| && EndOf(ps, k) == j
  }

  ghost predicate SplitsAtCuts(s: string, ps: seq<string>, rest: string) {
    && s == Terminated(ps) + rest
    && forall j: nat {:trigger IsCut(s, j)} {:trigger Separates(ps, j)} :: j < |s| ==> (IsCut(s, j) <==> Separates(ps, j))
  }

  lemma TerminatedAppend(ps: seq<string>, p: string)
    ensures Terminated(ps + [p]) == Terminated(ps) + p + ","
  {
    assert (ps + [p])[..|ps|] == ps;
  }

  lemma {:induction false} PieceEndsInside(ps: seq<string>, k: nat)
    requires k < |ps|
    ensures EndOf(ps, k) < |Terminated(ps)|
    decreases |ps|
  {
    var init := ps[..|ps| - 1];
    if k < |init| {
      PieceEndsInside(init, k);
      assert init[..k] == ps[..k];
    }
  }

  lemma SeparatesAppend(ps: seq<string>, p: string, j: nat)
    ensures Separates(ps + [p], j) <==> Separates(ps, j) || j == |Terminated(ps)| + |p|
  {
    assert (ps + [p])[..|ps|] == ps;
    assert EndOf(ps + [p], |ps|) == |Terminated(ps)| + |p|;
    forall k: nat | k < |ps| ensures EndOf(ps + [p], k) == EndOf(ps, k) {
      assert (ps + [p])[..k] == ps[..k];
    }
    if k: nat :| k < |ps| && EndOf(ps, k) == j {
      assert EndOf(ps + [p], k) == j;
    }
  }

  lemma SeparatorsFit(ps: seq<string>, j: nat)
    requires Separates(ps, j)
    ensures j < |Terminated(ps)|
  {
    var k: nat :| k < |ps| && EndOf(ps, k) == j;
    PieceEndsInside(ps, k);
  }

  lemma CutsOfPrefix(s: string, j: nat)
    requires j + 1 < |s|
    ensures IsCut(s, j) == IsCut(s[..|s| - 1], j)
  {
    assert s[..|s| - 1][..j] == s[..j];
  }

  // The walker's pieces are separated by exactly the top-level commas.
  lemma {:induction false} PiecesSplitAtCuts(s: string)
    ensures SplitsAtCuts(s, Pieces(s).0, Pieces(s).1)
  {
    if s != "" {
      var init, c, p := s[..|s| - 1], s[|s| - 1], Pieces(s[..|s| - 1]);
      PiecesSplitAtCuts(init);
      if c == ',' && Depth(init) == 0 {
        TerminatedAppend(p.0, p.1);
      }
      forall j: nat | j < |s| ensures IsCut(s, j) <==> Separates(Pieces(s).0, j) {
        SeparatesAppend(p.0, p.1, j);
        if j + 1 < |s| {
          CutsOfPrefix(s, j);
        } else if Separates(p.0, j) {
          SeparatorsFit(p.0, j);
        }
      }
    }
  }

  lemma LastPieceEnds(ps: seq<string>)
    requires ps != []
    ensures |Terminated(ps)| > 0 && Separates(ps, |Terminated(ps)| - 1)
  {
    assert EndOf(ps, |ps| - 1) == |Terminated(ps)| - 1;
  }

  // Nothing else is separated that way, so the walker's answer is the only one.
  lemma {:induction false} SplitIsUnique(s: string, ps: seq<string>, rest: string)
    requires SplitsAtCuts(s, ps, rest)
    ensures Pieces(s) == (ps, rest)
  {
    if s == "" {
      if ps != [] {
        LastPieceEnds(ps);
      }
    } else {
      var init := s[..|s| - 1];
      assert IsCut(s, |s| - 1) <==> Separates(ps, |s| - 1);
      if rest == "" {
        assert ps != [];
        LastPieceEnds(ps);
        var front, p := ps[..|ps| - 1], ps[|ps| - 1];
        assert ps == front + [p];
        assert init == Terminated(front) + p;
        forall j: nat | j < |init| ensures IsCut(init, j) <==> Separates(front, j) {
          CutsOfPrefix(s, j);
          SeparatesAppend(front, p, j);
        }
        SplitIsUnique(init, front, p);
      } else {
        if Separates(ps, |s| - 1) {
          SeparatorsFit(ps, |s| - 1);
        }
        assert init == Terminated(ps) + rest[..|rest| - 1];
        forall j: nat | j < |init| ensures IsCut(init, j) <==> Separates(ps, j) {
          CutsOfPrefix(s, j);
        }
        SplitIsUnique(init, ps, rest[..|rest| - 1]);
        assert s[|s| - 1] == rest[|rest| - 1];
        assert rest == rest[..|rest| - 1] + [s[|s| - 1]];
      }
    }
  }

  function Join(sep: string, parts: seq<string>): string {
    if parts == [] then "" else if |parts| == 1 then parts[0] else
    Join(sep, parts[..|parts| - 1]) + sep + parts[|parts| - 1]
  }

  lemma {:induction false} TerminatedIsJoined(ps: seq<string>)
    requires ps != []
    ensures Terminated(ps) == Join(",", ps) + ","
  {
    if |ps| > 1 {
      TerminatedIsJoined(ps[..|ps| - 1]);
    } else {
      assert Terminated(ps[..0]) == "";
    }
  }

  // Joining the unstripped pieces with commas restores the input, unless the input ends in a
  // top-level comma: the walker drops the empty piece behind it.
  lemma RejoiningRestoresIff(s: string)
    ensures Join(",", RawTerms(s)) == s <==> s == "" || !IsCut(s, |s| - 1)
  {
    PiecesSplitAtCuts(s);
    var ps, rest := Pieces(s).0, Pieces(s).1;
    if s != "" {
      if rest == "" {
        LastPieceEnds(ps);
        TerminatedIsJoined(ps);
      } else {
        if Separates(ps, |s| - 1) {
          SeparatorsFit(ps, |s| - 1);
        }
        if ps != [] {
          TerminatedIsJoined(ps);
          assert (ps + [rest])[..|ps|] == ps;
        }
      }
    }
  }

  // ---- the shape of terms -------------------------------------------------

  // No top-level comma inside.
  predicate Atomic(s: string) {
    Pieces(s).0 == []
  }

  predicate Stripped(s: string) {
    s == "" || (!IsSpace(s[0]) && !IsSpace(s[|s| - 1]))
  }

  lemma AtomicIsWhole(s: string)
    requires Atomic(s)
    ensures Pieces(s).1 == s
  {
    PiecesSplitAtCuts(s);
  }

  lemma {:induction false} PiecesAreAtomic(s: string)
    ensures forall p :: p in Pieces(s).0 ==> Atomic(p) && Depth(p) == 0
    ensures Atomic(Pieces(s).1) && Depth(Pieces(s).1) == Depth(s)
  {
    if s != "" {
      var c, p := s[|s| - 1], Pieces(s[..|s| - 1]);
      PiecesAreAtomic(s[..|s| - 1]);
      assert (p.1 + [c])[..|p.1|] == p.1;
    }
  }

  lemma {:induction false} LeadingSpace(c: char, t: string)
    requires IsSpace(c)
    ensures Depth([c] + t) == Depth(t)
    ensures Atomic([c] + t) <==> Atomic(t)
  {
    if t == "" {
      assert [c] + t == [c];
      assert [c][..0] == "";
    } else {
      LeadingSpace(c, t[..|t| - 1]);
      assert ([c] + t)[..|t|] == [c] + t[..|t| - 1];
    }
  }

  lemma {:induction false} StripKeepsShape(s: string)
    ensures Stripped(Strip(s))
    ensures Depth(Strip(s)) == Depth(s)
    ensures Atomic(s) ==> Atomic(Strip(s))
    decreases |s|
  {
    if s != "" {
      if IsSpace(s[0]) {
        StripKeepsShape(s[1..]);
        assert s == [s[0]] + s[1..];
        LeadingSpace(s[0], s[1..]);
      } else if IsSpace(s[|s| - 1]) {
        StripKeepsShape(s[..|s| - 1]);
      }
    }
  }

  predicate PlainText(t: string) {
    forall i :: 0 <= i < |t| ==> t[i] != ',' && t[i] != '(' && t[i] != ')'
  }

  lemma {:induction false} PlainSuffix(s: string, t: string)
    requires PlainText(t)
    ensures Depth(s + t) == Depth(s)
    ensures Pieces(s + t) == (Pieces(s).0, Pieces(s).1 + t)
  {
    if t == "" {
      assert s + t == s && Pieces(s).1 + t == Pieces(s).1;
    } else {
      var init, c := t[..|t| - 1], t[|t| - 1];
      PlainSuffix(s, init);
      assert (s + t)[..|s + t| - 1] == s + init;
      assert Pieces(s).1 + init + [c] == Pieces(s).1 + t;
    }
  }

  lemma PlainTextIsAtomic(t: string)
    requires PlainText(t)
    ensures Atomic(t) && Depth(t) == 0
  {
    PlainSuffix("", t);
    assert "" + t == t;
  }

  lemma {:induction false} PiecesAfterCut(s: string, t: string)
    requires Depth(s) == 0
    ensures Depth(s + "," + t) == Depth(t)
    ensures Pieces(s + "," + t) == (Pieces(s).0 + [Pieces(s).1] + Pieces(t).0, Pieces(t).1)
  {
    if t == "" {
      assert s + "," + t == s + ",";
      assert (s + ",")[..|s|] == s;
      assert Pieces(s).0 + [Pieces(s).1] + Pieces(t).0 == Pieces(s).0 + [Pieces(s).1];
    } else {
      var init := t[..|t| - 1];
      PiecesAfterCut(s, init);
      assert (s + "," + t)[..|s + "," + t| - 1] == s + "," + init;
      assert Pieces(s).0 + [Pieces(s).1] + Pieces(init).0 + [Pieces(init).1]
          == Pieces(s).0 + [Pieces(s).1] + (Pieces(init).0 + [Pieces(init).1]);
    }
  }

  // ---- the resolved clause ------------------------------------------------

  function Spaced(terms: seq<string>): (r: seq<string>)
    ensures |r| == |terms|
  {
    if |terms| <= 1 then terms else Spaced(terms[..|terms| - 1]) + [" " + terms[|terms| - 1]]
  }

  lemma {:induction false} SpacedAt(terms: seq<string>, i: nat)
    requires i < |terms|
    ensures Spaced(terms)[i] == if i == 0 then terms[i] else " " + terms[i]
  {
    if |terms| > 1 && i < |terms| - 1 {
      SpacedAt(terms[..|terms| - 1], i);
    }
  }

  // Terms a clause can be built from: each in one piece, and only the last may leave a
  // parenthesis open.
  ghost predicate WellFormed(terms: seq<string>) {
    && terms != []
    && (forall i :: 0 <= i < |terms| ==> Stripped(terms[i]) && Atomic(terms[i]))
    && (forall i :: 0 <= i < |terms| - 1 ==> Depth(terms[i]) == 0)
  }

  lemma Regroup(a: string, b: string, c: string, d: string)
    ensures a + (b + c) + d == a + b + (c + d)
  {
  }

  function AllPieces(s: string): seq<string> {
    Pieces(s).0 + [Pieces(s).1]
  }

  lemma AddedPiece(s: string, t: string)
    requires Depth(s) == 0 && Atomic(t)
    ensures Depth(s + "," + (" " + t)) == Depth(t)
    ensures AllPieces(s + "," + (" " + t)) == AllPieces(s) + [" " + t]
  {
    PiecesAfterCut(s, " " + t);
    LeadingSpace(' ', t);
    AtomicIsWhole(" " + t);
  }

  lemma {:induction false} JoinedPieces(terms: seq<string>)
    requires WellFormed(terms)
    ensures AllPieces(Join(", ", terms)) == Spaced(terms)
    ensures Depth(Join(", ", terms)) == Depth(terms[|terms| - 1])
  {
    var init, last := terms[..|terms| - 1], terms[|terms| - 1];
    if |terms| == 1 {
      AtomicIsWhole(last);
      assert Spaced(terms) == [last];
    } else {
      JoinedPieces(init);
      Regroup(Join(", ", init), ",", " ", last);
      assert ", " == "," + " ";
      AddedPiece(Join(", ", init), last);
    }
  }

  // Joining terms with ", " and splitting again is the identity.
  lemma JoinedTermsSplitBack(terms: seq<string>)
    requires WellFormed(terms) && terms[|terms| - 1] != ""
    ensures Terms(Join(", ", terms)) == terms
  {
    JoinedPieces(terms);
    var n := |terms|;
    SpacedAt(terms, n - 1);
    assert RawTerms(Join(", ", terms)) == Spaced(terms);
    forall i | 0 <= i < n ensures Strip(Spaced(terms)[i]) == terms[i] {
      SpacedAt(terms, i);
      StripSpaced(terms[i]);
    }
  }

  lemma StripSpaced(t: string)
    requires Stripped(t)
    ensures Strip(t) == Strip(" " + t) == t
  {
    assert (" " + t)[1..] == t;
  }

  function DirectionOf(sortDir: Option<string>): string {
    if sortDir == Some("desc") then "DESC" else "ASC"
  }

  function Directed(terms: seq<string>, direction: string): seq<string>
    requires terms != []
  {
    terms[|terms| - 1 := terms[|terms| - 1] + " " + direction]
  }

  lemma SplitTermsAreWellFormed(s: string)
    requires RawTerms(s) != []
    ensures WellFormed(Terms(s))
  {
    PiecesAreAtomic(s);
    var raw := RawTerms(s);
    forall i | 0 <= i < |raw|
      ensures Stripped(Strip(raw[i])) && Atomic(Strip(raw[i])) && (i < |raw| - 1 ==> Depth(Strip(raw[i])) == 0)
    {
      StripKeepsShape(raw[i]);
      if i < |Pieces(s).0| {
        assert raw[i] == Pieces(s).0[i];
      }
    }
  }

  lemma DirectedTermsSplitBack(terms: seq<string>, direction: string)
    requires WellFormed(terms) && terms[|terms| - 1] != ""
    requires direction in {"ASC", "DESC"}
    ensures Terms(Join(", ", Directed(terms, direction))) == Directed(terms, direction)
  {
    var last := terms[|terms| - 1];
    PlainSuffix(last, " " + direction);
    assert last + (" " + direction) == last + " " + direction;
    JoinedTermsSplitBack(Directed(terms, direction));
  }

  const DEFAULT_ORDER := "if_score IS NULL, if_score ASC"

  ghost predicate EndsInTerm(expr: string) {
    Terms(expr) != [] && Terms(expr)[|Terms(expr)| - 1] != ""
  }

  method JoinDirected(parts: seq<string>, direction: string) returns (clause: string)
    requires WellFormed(parts) && parts[|parts| - 1] != "" && direction in {"ASC", "DESC"}
    ensures Terms(clause) == Directed(parts, direction)
  {
    DirectedTermsSplitBack(parts, direction);
    clause := Join(", ", parts[|parts| - 1 := parts[|parts| - 1] + " " + direction]);
  }

  method AppendDirection(expr: string, direction: string) returns (clause: string)
    requires EndsInTerm(expr) && direction in {"ASC", "DESC"}
    ensures Terms(clause) == Directed(Terms(expr), direction)
  {
    var parts := SplitTopLevelCommas(expr);
    SplitTermsAreWellFormed(expr);
    clause := JoinDirected(parts, direction);
  }

  lemma TwoTerms(a: string, b: string)
    requires Stripped(a) && Stripped(b) && b != ""
    requires PlainText(a) && PlainText(b)
    ensures Terms(a + ", " + b) == [a, b]
  {
    PlainTextIsAtomic(a);
    PlainTextIsAtomic(b);
    assert [a, b][..1] == [a];
    assert Join(", ", [a, b]) == a + ", " + b;
    JoinedTermsSplitBack([a, b]);
  }

  lemma OneTerm(a: string)
    requires Stripped(a) && PlainText(a) && a != ""
    ensures Terms(a) == [a]
  {
    PlainTextIsAtomic(a);
    assert Join(", ", [a]) == a;
    JoinedTermsSplitBack([a]);
  }

  // ---- expressions with parentheses ---------------------------------------

  predicate CommaFree(t: string) {
    forall i :: 0 <= i < |t| ==> t[i] != ','
  }

  // Reading t after anything leaves the depth where it was.
  ghost predicate Balanced(t: string) {
    forall s: string :: Depth(s + t) == Depth(s)
  }

  lemma {:induction false} CommaFreeIsAtomic(t: string)
    requires CommaFree(t)
    ensures Atomic(t)
  {
    if t != "" {
      CommaFreeIsAtomic(t[..|t| - 1]);
    }
  }

  lemma PlainIsBalanced(t: string)
    requires PlainText(t)
    ensures Balanced(t) && CommaFree(t)
  {
    forall s: string ensures Depth(s + t) == Depth(s) {
      PlainSuffix(s, t);
    }
  }

  lemma BalancedConcat(a: string, b: string)
    requires Balanced(a) && CommaFree(a) && Balanced(b) && CommaFree(b)
    ensures Balanced(a + b) && CommaFree(a + b)
  {
    forall s: string ensures Depth(s + (a + b)) == Depth(s) {
      assert s + (a + b) == (s + a) + b;
      assert Depth(s + a) == Depth(s);
    }
  }

  function Parens(t: string): string {
    "(" + t + ")"
  }

  lemma BalancedParens(t: string)
    requires Balanced(t) && CommaFree(t)
    ensures Balanced(Parens(t)) && CommaFree(Parens(t))
  {
    forall s: string ensures Depth(s + Parens(t)) == Depth(s) {
      assert s + Parens(t) == (s + "(") + t + ")";
      assert (s + "(")[..|s|] == s && Depth(s + "(") == Depth(s) + 1;
      assert Depth((s + "(") + t) == Depth(s) + 1;
      assert ((s + "(") + t + ")")[..|s + "(" + t|] == (s + "(") + t;
    }
  }

  lemma BalancedStaysShallow(t: string)
    requires Balanced(t)
    ensures Depth(t) == 0
  {
    assert "" + t == t;
    assert Depth("" + t) == Depth("");
  }

  lemma TwoBalancedTerms(a: string, b: string)
    requires Stripped(a) && Stripped(b) && b != ""
    requires Balanced(a) && CommaFree(a) && Balanced(b) && CommaFree(b)
    ensures Terms(a + ", " + b) == [a, b]
  {
    CommaFreeIsAtomic(a);
    CommaFreeIsAtomic(b);
    BalancedStaysShallow(a);
    assert [a, b][..1] == [a];
    assert Join(", ", [a, b]) == a + ", " + b;
    JoinedTermsSplitBack([a, b]);
  }

  // ---- the sortable columns -----------------------------------------------

  datatype Column =
    | Mac | SiteName | Wlan | DeviceFamily | IfScore | Health | MarkovRatio | TotalEvents
    | CategoryCount(category: Category)

  // What a request asks to sort by.
  datatype Sort = ByKey(key: Column) | ByUnknown(name: string)

  function CategoryColumn(c: Category): string {
    match c
    case DhcpSuccess => "dhcp_success"
    case DhcpFailure => "dhcp_failure"
    case DnsSuccess => "dns_success"
    case DnsFailure => "dns_failure"
    case AuthSuccess => "auth_success"
    case AuthFailure => "auth_failure"
    case RoamSuccess => "roam_success"
    case RoamFailure => "roam_failure"
    case DisassocAp => "disassoc_ap"
    case DisassocClient => "disassoc_client"
    case ArpSuccess => "arp_success"
    case ArpFailure => "arp_failure"
    case CaptivePortal => "captive_portal"
    case Security => "security"
    case Collaboration => "collaboration"
    case Other => "other"
  }

  function AddedUp(cs: seq<Category>): string {
    if cs == [] then "" else if |cs| == 1 then CategoryColumn(cs[0]) else
    AddedUp(cs[..|cs| - 1]) + " + " + CategoryColumn(cs[|cs| - 1])
  }

  const OUTCOMES: seq<Category> := [
    AuthSuccess, AuthFailure, RoamSuccess, RoamFailure, DhcpSuccess, DhcpFailure,
    DnsSuccess, DnsFailure, ArpSuccess, ArpFailure]

  const FAILURES: seq<Category> := [AuthFailure, RoamFailure, DhcpFailure, DnsFailure, ArpFailure]

  function HealthTotal(): string {
    Parens(AddedUp(OUTCOMES))
  }

  function HealthFailure(): string {
    Parens(AddedUp(FAILURES))
  }

  function HealthFlag(): string {
    Parens(HealthTotal() + " = 0")
  }

  function HealthTest(): string {
    "CASE WHEN " + HealthTotal() + " > 0 THEN 1.0 - CAST"
  }

  function HealthShare(): string {
    HealthTest() + Parens(HealthFailure() + " AS REAL") + " / "
  }

  function HealthValue(): string {
    HealthShare() + HealthTotal() + " ELSE NULL END"
  }

  function ColumnOf(key: Column): string {
    match key
    case Mac => "mac"
    case SiteName => "site_id"
    case Wlan => "wlan"
    case DeviceFamily => "device_family"
    case IfScore => "if_score IS NULL, if_score"
    case Health => HealthFlag() + ", " + HealthValue()
    case MarkovRatio => "is_markov_outlier"
    case TotalEvents => "total_events"
    case CategoryCount(c) => CategoryColumn(c)
  }

  // The keys of the column table, as a request names them.
  function KeyName(key: Column): string {
    match key
    case Mac => "mac"
    case SiteName => "site_name"
    case Wlan => "wlan"
    case DeviceFamily => "device_family"
    case IfScore => "if_score"
    case Health => "health"
    case MarkovRatio => "markov_ratio"
    case TotalEvents => "total_events"
    case CategoryCount(c) => CategoryKey(c)
  }

  function CategoryKey(c: Category): string {
    match c
    case DhcpSuccess => "DHCP_SUCCESS"
    case DhcpFailure => "DHCP_FAILURE"
    case DnsSuccess => "DNS_SUCCESS"
    case DnsFailure => "DNS_FAILURE"
    case AuthSuccess => "AUTH_SUCCESS"
    case AuthFailure => "AUTH_FAILURE"
    case RoamSuccess => "ROAM_SUCCESS"
    case RoamFailure => "ROAM_FAILURE"
    case DisassocAp => "DISASSOC_AP"
    case DisassocClient => "DISASSOC_CLIENT"
    case ArpSuccess => "ARP_SUCCESS"
    case ArpFailure => "ARP_FAILURE"
    case CaptivePortal => "CAPTIVE_PORTAL"
    case Security => "SECURITY"
    case Collaboration => "COLLABORATION"
    case Other => "OTHER"
  }

  ghost predicate IsLowerCaseOf(t: string, s: string) {
    |t| == |s| && forall i :: 0 <= i < |s| ==> t[i] == if 'A' <= s[i] <= 'Z' then s[i] - 'A' + 'a' else s[i]
  }

  lemma DhcpColumnsAreKeys(c: Category)
    requires c == DhcpSuccess || c == DhcpFailure
    ensures IsLowerCaseOf(CategoryColumn(c), CategoryKey(c))
  {
  }

  lemma DnsColumnsAreKeys(c: Category)
    requires c == DnsSuccess || c == DnsFailure
    ensures IsLowerCaseOf(CategoryColumn(c), CategoryKey(c))
  {
  }

  lemma AuthColumnsAreKeys(c: Category)
    requires c == AuthSuccess || c == AuthFailure
    ensures IsLowerCaseOf(CategoryColumn(c), CategoryKey(c))
  {
  }

  lemma RoamColumnsAreKeys(c: Category)
    requires c == RoamSuccess || c == RoamFailure
    ensures IsLowerCaseOf(CategoryColumn(c), CategoryKey(c))
  {
  }

  lemma ArpColumnsAreKeys(c: Category)
    requires c == ArpSuccess || c == ArpFailure
    ensures IsLowerCaseOf(CategoryColumn(c), CategoryKey(c))
  {
  }

  lemma DisassocColumnsAreKeys(c: Category)
    requires c == DisassocAp || c == DisassocClient
    ensures IsLowerCaseOf(CategoryColumn(c), CategoryKey(c))
  {
  }

  lemma PolicyColumnsAreKeys(c: Category)
    requires c == CaptivePortal || c == Security
    ensures IsLowerCaseOf(CategoryColumn(c), CategoryKey(c))
  {
  }

  lemma CallColumnsAreKeys(c: Category)
    requires c == Collaboration || c == Other
    ensures IsLowerCaseOf(CategoryColumn(c), CategoryKey(c))
  {
  }

  lemma CategoryColumnsAreKeys(c: Category)
    ensures IsLowerCaseOf(CategoryColumn(c), CategoryKey(c))
  {
    match c
    case DhcpSuccess | DhcpFailure => DhcpColumnsAreKeys(c);
    case DnsSuccess | DnsFailure => DnsColumnsAreKeys(c);
    case AuthSuccess | AuthFailure => AuthColumnsAreKeys(c);
    case RoamSuccess | RoamFailure => RoamColumnsAreKeys(c);
    case ArpSuccess | ArpFailure => ArpColumnsAreKeys(c);
    case DisassocAp | DisassocClient => DisassocColumnsAreKeys(c);
    case CaptivePortal | Security => PolicyColumnsAreKeys(c);
    case Collaboration | Other => CallColumnsAreKeys(c);
  }

  // Every key but four is its own column in lower case.
  lemma ColumnsAreKeysInLowerCase(key: Column)
    ensures IsLowerCaseOf(ColumnOf(key), KeyName(key)) || key in {SiteName, IfScore, Health, MarkovRatio}
    ensures ColumnOf(SiteName) == "site_id" && ColumnOf(MarkovRatio) == "is_markov_outlier"
  {
    if key.CategoryCount? {
      CategoryColumnsAreKeys(key.category);
    }
  }

  predicate IsName(t: string) {
    PlainText(t) && Stripped(t) && t != ""
  }

  lemma SuccessColumnIsName(c: Category)
    requires c in {DhcpSuccess, DnsSuccess, AuthSuccess, RoamSuccess, ArpSuccess}
    ensures IsName(CategoryColumn(c))
  {
  }

  lemma FailureColumnIsName(c: Category)
    requires c in {DhcpFailure, DnsFailure, AuthFailure, RoamFailure, ArpFailure}
    ensures IsName(CategoryColumn(c))
  {
  }

  lemma LeavingColumnIsName(c: Category)
    requires c in {DisassocAp, DisassocClient, Other}
    ensures IsName(CategoryColumn(c))
  {
  }

  lemma NeutralColumnIsName(c: Category)
    requires c in {CaptivePortal, Security, Collaboration}
    ensures IsName(CategoryColumn(c))
  {
  }

  lemma CategoryColumnIsName(c: Category)
    ensures IsName(CategoryColumn(c))
  {
    if c in {DhcpSuccess, DnsSuccess, AuthSuccess, RoamSuccess, ArpSuccess} {
      SuccessColumnIsName(c);
    } else if c in {DhcpFailure, DnsFailure, AuthFailure, RoamFailure, ArpFailure} {
      FailureColumnIsName(c);
    } else if c in {DisassocAp, DisassocClient, Other} {
      LeavingColumnIsName(c);
    } else {
      NeutralColumnIsName(c);
    }
  }

  lemma PlainConcat(a: string, b: string)
    requires PlainText(a) && PlainText(b)
    ensures PlainText(a + b)
  {
  }

  lemma {:induction false} AddedUpIsPlain(cs: seq<Category>)
    ensures PlainText(AddedUp(cs))
  {
    if cs != [] {
      CategoryColumnIsName(cs[|cs| - 1]);
      if |cs| > 1 {
        AddedUpIsPlain(cs[..|cs| - 1]);
        PlainConcat(AddedUp(cs[..|cs| - 1]), " + ");
        PlainConcat(AddedUp(cs[..|cs| - 1]) + " + ", CategoryColumn(cs[|cs| - 1]));
      }
    }
  }

  lemma TotalsAreBalanced()
    ensures Balanced(HealthTotal()) && CommaFree(HealthTotal())
    ensures Balanced(HealthFailure()) && CommaFree(HealthFailure())
  {
    AddedUpIsPlain(OUTCOMES);
    AddedUpIsPlain(FAILURES);
    PlainIsBalanced(AddedUp(OUTCOMES));
    PlainIsBalanced(AddedUp(FAILURES));
    BalancedParens(AddedUp(OUTCOMES));
    BalancedParens(AddedUp(FAILURES));
  }

  lemma HealthFlagIsBalanced()
    ensures Balanced(HealthFlag()) && CommaFree(HealthFlag()) && Stripped(HealthFlag())
  {
    TotalsAreBalanced();
    PlainIsBalanced(" = 0");
    BalancedConcat(HealthTotal(), " = 0");
    BalancedParens(HealthTotal() + " = 0");
  }

  lemma BalancedAround(before: string, t: string, after: string)
    requires Balanced(before) && CommaFree(before) && before != ""
    requires Balanced(t) && CommaFree(t) && PlainText(after) && after != ""
    ensures Balanced(before + t + after) && CommaFree(before + t + after)
    ensures before + t + after != "" && (before + t + after)[0] == before[0]
    ensures (before + t + after)[|before + t + after| - 1] == after[|after| - 1]
  {
    PlainIsBalanced(after);
    BalancedConcat(before, t);
    BalancedConcat(before + t, after);
  }

  // The literal pieces of the health expression.
  lemma PiecesArePlain()
    ensures PlainText("CASE WHEN ") && PlainText(" > 0 THEN 1.0 - CAST") && PlainText(" AS REAL")
    ensures PlainText(" / ") && PlainText(" ELSE NULL END")
  {
  }

  lemma CastIsBalanced(failure: string)
    requires Balanced(failure) && CommaFree(failure)
    ensures Balanced(Parens(failure + " AS REAL")) && CommaFree(Parens(failure + " AS REAL"))
  {
    PiecesArePlain();
    PlainIsBalanced(" AS REAL");
    BalancedConcat(failure, " AS REAL");
    BalancedParens(failure + " AS REAL");
  }

  lemma TestIsBalanced(total: string)
    requires Balanced(total) && CommaFree(total)
    ensures var test := "CASE WHEN " + total + " > 0 THEN 1.0 - CAST";
      Balanced(test) && CommaFree(test) && test != "" && test[0] == 'C'
  {
    PiecesArePlain();
    PlainIsBalanced("CASE WHEN ");
    BalancedAround("CASE WHEN ", total, " > 0 THEN 1.0 - CAST");
  }

  lemma ShareIsBalanced(test: string, cast: string)
    requires Balanced(test) && CommaFree(test) && test != "" && Balanced(cast) && CommaFree(cast)
    ensures var share := test + cast + " / ";
      Balanced(share) && CommaFree(share) && share != "" && share[0] == test[0]
  {
    PiecesArePlain();
    BalancedAround(test, cast, " / ");
  }

  lemma ValueIsBalanced(share: string, total: string)
    requires Balanced(share) && CommaFree(share) && share != "" && !IsSpace(share[0])
    requires Balanced(total) && CommaFree(total)
    ensures var value := share + total + " ELSE NULL END";
      Balanced(value) && CommaFree(value) && Stripped(value) && value != ""
  {
    PiecesArePlain();
    BalancedAround(share, total, " ELSE NULL END");
  }

  lemma HealthValueIsBalanced()
    ensures Balanced(HealthValue()) && CommaFree(HealthValue()) && Stripped(HealthValue()) && HealthValue() != ""
  {
    TotalsAreBalanced();
    TestIsBalanced(HealthTotal());
    CastIsBalanced(HealthFailure());
    ShareIsBalanced(HealthTest(), Parens(HealthFailure() + " AS REAL"));
    ValueIsBalanced(HealthShare(), HealthTotal());
  }

  // The health expression is cut into its null flag and its score, nested parentheses and all.
  lemma HealthExpression()
    ensures Terms(ColumnOf(Health)) == [HealthFlag(), HealthValue()]
    ensures HealthValue() != ""
  {
    HealthFlagIsBalanced();
    HealthValueIsBalanced();
    TwoBalancedTerms(HealthFlag(), HealthValue());
  }

  lemma IfScoreExpression()
    ensures Terms(ColumnOf(IfScore)) == ["if_score IS NULL", "if_score"]
  {
    TwoTerms("if_score IS NULL", "if_score");
    assert "if_score IS NULL" + ", " + "if_score" == "if_score IS NULL, if_score";
  }

  lemma NameEndsInTerm(name: string)
    requires IsName(name)
    ensures EndsInTerm(name)
  {
    OneTerm(name);
  }

  // Every sortable column's expression ends in a term.
  lemma ColumnsEndInTerm(key: Column)
    ensures EndsInTerm(ColumnOf(key))
  {
    match key
    case Mac => NameEndsInTerm("mac");
    case SiteName => NameEndsInTerm("site_id");
    case Wlan => NameEndsInTerm("wlan");
    case DeviceFamily => NameEndsInTerm("device_family");
    case IfScore => IfScoreExpression();
    case Health => HealthExpression();
    case MarkovRatio => NameEndsInTerm("is_markov_outlier");
    case TotalEvents => NameEndsInTerm("total_events");
    case CategoryCount(c) =>
      CategoryColumnIsName(c);
      NameEndsInTerm(CategoryColumn(c));
  }

  // The clause has the column expression's terms, with the direction on the last one only.
  method ResolveDrilldownOrder(sort: Option<Sort>, sortDir: Option<string>) returns (clause: string)
    ensures sort.None? || sort.value.ByUnknown? ==> clause == DEFAULT_ORDER
    ensures sort.Some? && sort.value.ByKey? ==>
      EndsInTerm(ColumnOf(sort.value.key))
      && Terms(clause) == Directed(Terms(ColumnOf(sort.value.key)), DirectionOf(sortDir))
  {
    if sort.None? || sort.value.ByUnknown? {
      return DEFAULT_ORDER;
    }
    var direction := if sortDir == Some("desc") then "DESC" else "ASC";
    ColumnsEndInTerm(sort.value.key);
    clause := AppendDirection(ColumnOf(sort.value.key), direction);
  }

  // ---- what a clause with a null flag means -------------------------------

  // `score` is the sorted column's value.
  datatype Row = Row(mac: string, score: Option<real>)

  datatype SortTerm = NullFlag | Score(descending: bool)

  datatype Scored = ByIfScore | ByHealth

  function FlagText(column: Scored): string {
    match column
    case ByIfScore => "if_score IS NULL"
    case ByHealth => HealthFlag()
  }

  function ScoreText(column: Scored): string {
    match column
    case ByIfScore => "if_score"
    case ByHealth => HealthValue()
  }

  function Text(column: Scored): SortTerm -> string {
    (term: SortTerm) =>
      match term
      case NullFlag => FlagText(column)
      case Score(descending) => ScoreText(column) + " " + if descending then "DESC" else "ASC"
  }

  function ScoreClause(descending: bool): seq<SortTerm> {
    [NullFlag, Score(descending)]
  }

  // Negative, zero or positive; NULL ranks below every value.
  function Compare(term: SortTerm, a: Row, b: Row): real {
    match term
    case NullFlag => (if a.score.None? then 1.0 else 0.0) - if b.score.None? then 1.0 else 0.0
    case Score(descending) =>
      var c := if a.score.None? then (if b.score.None? then 0.0 else -1.0)
        else if b.score.None? then 1.0 else a.score.value - b.score.value;
      if descending then -c else c
  }

  predicate Precedes(terms: seq<SortTerm>, a: Row, b: Row) {
    terms == [] || Compare(terms[0], a, b) < 0.0
    || (Compare(terms[0], a, b) == 0.0 && Precedes(terms[1..], a, b))
  }

  lemma DefaultOrderIsTwoTerms()
    ensures Terms(DEFAULT_ORDER) == ["if_score IS NULL", "if_score ASC"]
  {
    TwoTerms("if_score IS NULL", "if_score ASC");
    assert "if_score IS NULL" + ", " + "if_score ASC" == DEFAULT_ORDER;
  }

  lemma DefaultOrderTerms()
    ensures Terms(DEFAULT_ORDER) == Map(Text(ByIfScore), ScoreClause(false))
  {
    DefaultOrderIsTwoTerms();
    assert "if_score" + " " + "ASC" == "if_score ASC";
  }

  // Sorting by if_score yields two terms, the null flag ascending and the score directed.
  lemma IfScoreClauseTerms(sortDir: Option<string>)
    ensures EndsInTerm(ColumnOf(IfScore))
    ensures Directed(Terms(ColumnOf(IfScore)), DirectionOf(sortDir))
      == Map(Text(ByIfScore), ScoreClause(sortDir == Some("desc")))
  {
    IfScoreExpression();
  }

  // So does sorting by health.
  lemma HealthClauseTerms(sortDir: Option<string>)
    ensures EndsInTerm(ColumnOf(Health))
    ensures Directed(Terms(ColumnOf(Health)), DirectionOf(sortDir))
      == Map(Text(ByHealth), ScoreClause(sortDir == Some("desc")))
  {
    HealthExpression();
  }

  // ---- sorting rows by if_score -------------------------------------------

  // The order such a clause asks for.
  function SqlOrder(descending: bool): (Row, Row) -> bool {
    (a: Row, b: Row) => Precedes(ScoreClause(descending), a, b)
  }

  // The sort key of the row list: the null flag, then the signed score with 0 for a null.
  function SortKey(descending: bool, r: Row): (bool, real) {
    var score := if r.score.Some? then r.score.value else 0.0;
    (r.score.None?, if descending then -score else score)
  }

  function KeyOrder(descending: bool): (Row, Row) -> bool {
    (a: Row, b: Row) =>
      var k, l := SortKey(descending, a), SortKey(descending, b);
      if k.0 == l.0 then k.1 <= l.1 else l.0
  }

  lemma KeyOrderIsSqlOrder(descending: bool)
    ensures TotalPreorder(SqlOrder(descending)) && TotalPreorder(KeyOrder(descending))
    ensures forall a, b :: KeyOrder(descending)(a, b) <==> SqlOrder(descending)(a, b)
  {
    forall a, b ensures KeyOrder(descending)(a, b) <==> SqlOrder(descending)(a, b) {
      PrecedesByKey(descending, a, b);
    }
    PreorderTransfers(KeyOrder(descending), SqlOrder(descending));
  }

  lemma PreorderTransfers<T(!new)>(p: (T, T) -> bool, q: (T, T) -> bool)
    requires TotalPreorder(p) && forall x, y :: p(x, y) <==> q(x, y)
    ensures TotalPreorder(q)
  {
    forall x, y, z | q(x, y) && q(y, z) ensures q(x, z) {
      assert p(x, y) && p(y, z);
    }
  }

  lemma PrecedesByKey(descending: bool, a: Row, b: Row)
    ensures Precedes(ScoreClause(descending), a, b) <==> KeyOrder(descending)(a, b)
  {
    var last := [Score(descending)];
    assert last[1..] == [];
    assert Precedes(last, a, b) <==> Compare(Score(descending), a, b) <= 0.0;
    assert ScoreClause(descending)[1..] == last;
  }

  lemma {:induction false} SameOrderSameSort<T>(p: (T, T) -> bool, q: (T, T) -> bool, s: seq<T>)
    requires forall x, y :: p(x, y) <==> q(x, y)
    ensures StableSort(p, s) == StableSort(q, s)
  {
    if s != [] {
      SameOrderSameSort(p, q, s[..|s| - 1]);
      SameOrderSameInsert(p, q, StableSort(p, s[..|s| - 1]), s[|s| - 1]);
    }
  }

  lemma {:induction false} SameOrderSameInsert<T>(p: (T, T) -> bool, q: (T, T) -> bool, s: seq<T>, x: T)
    requires forall x, y :: p(x, y) <==> q(x, y)
    ensures InsertAfterTies(p, s, x) == InsertAfterTies(q, s, x)
  {
    if s != [] {
      SameOrderSameInsert(p, q, s[..|s| - 1], x);
    }
  }

  lemma SortedRows(rows: seq<Row>, descending: bool)
    ensures StableSort(KeyOrder(descending), rows) == StableSort(SqlOrder(descending), rows)
    ensures StableArrangement(SqlOrder(descending), rows, StableSort(SqlOrder(descending), rows))
    ensures multiset(StableSort(SqlOrder(descending), rows)) == multiset(rows)
    ensures |StableSort(SqlOrder(descending), rows)| == |rows|
  {
    KeyOrderIsSqlOrder(descending);
    SameOrderSameSort(KeyOrder(descending), SqlOrder(descending), rows);
    StableSortArranges(SqlOrder(descending), rows);
    assert |multiset(StableSort(SqlOrder(descending), rows))| == |multiset(rows)|;
  }

  method WriteBack(rows: array<Row>, sorted: seq<Row>)
    requires |sorted| == rows.Length
    modifies rows
    ensures rows[..] == sorted
  {
    for i := 0 to rows.Length
      invariant rows[..i] == sorted[..i]
    {
      rows[i] := sorted[i];
    }
  }

  // The runtime's stable sort by key, written back in place: the rows end up in the clause's
  // order, ties in their old order, and no other arrangement does both.
  // Scored rows first, by score in the direction asked for, then the rows without one.
  ghost predicate ScoredRowsFirst(rows: seq<Row>, descending: bool) {
    forall i, j :: 0 <= i < j < |rows| ==>
      && (rows[i].score.None? ==> rows[j].score.None?)
      && (rows[i].score.Some? && rows[j].score.Some? ==>
            if descending then rows[i].score.value >= rows[j].score.value else rows[i].score.value <= rows[j].score.value)
  }

  lemma SortedByField(rows: seq<Row>, descending: bool)
    requires Sorted(SqlOrder(descending), rows)
    ensures ScoredRowsFirst(rows, descending)
  {
    forall i, j | 0 <= i < j < |rows|
      ensures rows[i].score.None? ==> rows[j].score.None?
      ensures rows[i].score.Some? && rows[j].score.Some? ==>
        if descending then rows[i].score.value >= rows[j].score.value else rows[i].score.value <= rows[j].score.value
    {
      assert SqlOrder(descending)(rows[i], rows[j]);
      PrecedesByKey(descending, rows[i], rows[j]);
    }
  }

  method SortRowsByIfScore(rows: array<Row>, sortDir: Option<string>)
    modifies rows
    ensures rows[..] == StableSort(SqlOrder(sortDir == Some("desc")), old(rows[..]))
    ensures StableArrangement(SqlOrder(sortDir == Some("desc")), old(rows[..]), rows[..])
    ensures ScoredRowsFirst(rows[..], sortDir == Some("desc"))
    ensures multiset(rows[..]) == multiset(old(rows[..]))
  {
    var descending := sortDir == Some("desc");
    SortedRows(rows[..], descending);
    SortedByField(StableSort(SqlOrder(descending), rows[..]), descending);
    WriteBack(rows, StableSort(KeyOrder(descending), rows[..]));
  }

  ghost predicate NullsLast(rows: seq<Row>) {
    forall i, j :: 0 <= i < j < |rows| && rows[i].score.None? ==> rows[j].score.None?
  }

  ghost predicate NullsFirst(rows: seq<Row>) {
    forall i, j :: 0 <= i < j < |rows| && rows[j].score.None? ==> rows[i].score.None?
  }

  ghost predicate Uniform(rows: seq<Row>) {
    (forall r :: r in rows ==> r.score.None?) || (forall r :: r in rows ==> r.score.Some?)
  }

  // Nulls come last in either direction.
  lemma NullsComeLast(rows: seq<Row>, descending: bool)
    ensures NullsLast(StableSort(SqlOrder(descending), rows))
  {
    SortedRows(rows, descending);
    var sorted := StableSort(SqlOrder(descending), rows);
    forall i, j | 0 <= i < j < |sorted| && sorted[i].score.None? ensures sorted[j].score.None? {
      assert SqlOrder(descending)(sorted[i], sorted[j]);
    }
  }

  lemma NullsOnBothEnds(rows: seq<Row>)
    requires NullsLast(rows)
    ensures NullsFirst(rows) <==> Uniform(rows)
  {
  }

  lemma SameMembersUniform(a: seq<Row>, b: seq<Row>)
    requires multiset(a) == multiset(b)
    ensures Uniform(a) <==> Uniform(b)
  {
    forall r ensures r in a <==> r in b {
      assert r in multiset(a) <==> r in multiset(b);
    }
  }

  // The docstring has DESC put nulls first: that holds only when there is nothing to place.
  lemma DescendingPutsNullsFirstIff(rows: seq<Row>)
    ensures NullsFirst(StableSort(SqlOrder(true), rows)) <==> Uniform(rows)
  {
    NullsComeLast(rows, true);
    NullsOnBothEnds(StableSort(SqlOrder(true), rows));
    SortedRows(rows, true);
    SameMembersUniform(rows, StableSort(SqlOrder(true), rows));
  }
}
