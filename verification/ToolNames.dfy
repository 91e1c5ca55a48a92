/** Tool-name shortening (codex_openai_request_helpers.go) and the map back to the
    original names (codex_openai_response.go). Names are sequences of bytes. */
module ToolNames {
  import opened Ordering

  const LIMIT := 64

  const PREFIX := "mcp__"

  function Pow10(n: nat): nat {
    if n == 0 then 1 else 10 * Pow10(n - 1)
  }

  /** strconv.Itoa. */
  function Decimal(i: nat): string {
    var digit := [('0' as int + i % 10) as char];
    if i < 10 then digit else Decimal(i / 10) + digit
  }

  /** The number that decimal digits stand for. */
  function Value(s: string): int {
    if s == "" then 0 else 10 * Value(s[..|s| - 1]) + (s[|s| - 1] as int - '0' as int)
  }

  lemma {:induction false} DecimalStandsFor(i: nat)
    ensures Value(Decimal(i)) == i && '_' !in Decimal(i) && |Decimal(i)| > 0
  {
    if i >= 10 {
      DecimalStandsFor(i / 10);
      assert Decimal(i)[..|Decimal(i)| - 1] == Decimal(i / 10);
    } else {
      assert Decimal(i)[..0] == "";
    }
  }

  lemma {:induction false} DecimalLength(i: nat, digits: nat)
    requires i < Pow10(digits) && digits > 0
    ensures |Decimal(i)| <= digits
  {
    if i >= 10 {
      DecimalLength(i / 10, digits - 1);
    }
  }

  predicate HasPrefix(name: string) {
    PREFIX <= name
  }

  predicate SeparatorAt(name: string, k: int) {
    0 <= k <= |name| - 2 && name[k] == '_' && name[k + 1] == '_'
  }

  /** strings.LastIndex(name, "__") over positions up to `high`, or -1. */
  function LastSeparator(name: string, high: int): (k: int)
    ensures k == -1 || (k <= high && SeparatorAt(name, k))
    ensures forall j :: k < j <= high ==> !SeparatorAt(name, j)
    decreases high + 1
  {
    if high < 0 then -1 else if SeparatorAt(name, high) then high else LastSeparator(name, high - 1)
  }

  /** baseCandidate, which shortenNameIfNeeded repeats. */
  function BaseCandidate(name: string): string {
    if |name| <= LIMIT then name
    else if HasPrefix(name) && LastSeparator(name, |name| - 2) > 0 then
      var candidate := PREFIX + name[LastSeparator(name, |name| - 2) + 2..];
      if |candidate| > LIMIT then candidate[..LIMIT] else candidate
    else name[..LIMIT]
  }

  /** A candidate fits, and a long name with the prefix keeps it. */
  lemma CandidateFits(name: string)
    ensures |BaseCandidate(name)| <= LIMIT && (BaseCandidate(name) == name <==> |name| <= LIMIT)
    ensures HasPrefix(name) ==> HasPrefix(BaseCandidate(name))
  {
  }

  /** Where the last separator is. */
  lemma LastSeparatorAt(name: string, high: int, k: int)
    requires SeparatorAt(name, k) && k <= high && forall j :: k < j <= high ==> !SeparatorAt(name, j)
    ensures LastSeparator(name, high) == k
  {
  }

  /** A long name with the prefix is cut down to the prefix and its last segment; any other
      long name to its first 64 bytes. */
  lemma KeepsLastSegment(front: string, segment: string)
    requires var name := front + "__" + segment;
             |name| > 64 && "mcp__" <= name && forall j :: |front| < j < |name| ==> !SeparatorAt(name, j)
    ensures var short := "mcp__" + segment;
            BaseCandidate(front + "__" + segment) == if |short| <= 64 then short else short[..64]
  {
    var name := front + "__" + segment;
    assert SeparatorAt(name, |front|) && name[|front| + 2..] == segment;
    LastSeparatorAt(name, |name| - 2, |front|);
  }

  lemma CutOff(name: string)
    requires !("mcp__" <= name)
    ensures BaseCandidate(name) == if |name| <= 64 then name else name[..64]
  {
  }

  function Suffix(i: nat): string {
    "_" + Decimal(i)
  }

  lemma UnderscoreInside(front: string, back: string, other: string, tail: string)
    requires front + "_" + back == other + "_" + tail && |back| < |tail|
    ensures '_' in tail
  {
    var k := |tail| - |back| - 1;
    assert (front + "_" + back)[|front|] == '_';
    assert (other + "_" + tail)[|other| + 1 + k] == tail[k];
  }

  /** What follows the last underscore is determined. */
  lemma SameTail(front: string, back: string, other: string, tail: string)
    requires front + "_" + back == other + "_" + tail && '_' !in back && '_' !in tail
    ensures back == tail
  {
    if |back| < |tail| {
      UnderscoreInside(front, back, other, tail);
    } else if |tail| < |back| {
      UnderscoreInside(other, tail, front, back);
    }
    assert back == (front + "_" + back)[|front| + 1..];
    assert tail == (other + "_" + tail)[|other| + 1..];
  }

  function Front(base: string, i: nat): string {
    var allowed := if LIMIT - |Suffix(i)| < 0 then 0 else LIMIT - |Suffix(i)|;
    if |base| > allowed then base[..allowed] else base
  }

  /** The i-th variant of a name that is taken: the name, shortened if need be, and "_i". */
  function Variant(base: string, i: nat): string {
    Front(base, i) + Suffix(i)
  }

  lemma VariantFits(base: string, i: nat)
    requires i < Pow10(LIMIT - 1)
    ensures |Variant(base, i)| <= LIMIT
  {
    DecimalLength(i, LIMIT - 1);
  }

  /** Different variants are different strings: what follows the last underscore is i. */
  lemma VariantsDiffer(base: string, i: nat, j: nat)
    requires Variant(base, i) == Variant(base, j)
    ensures i == j
  {
    hide Front, Decimal;
    DecimalStandsFor(i);
    DecimalStandsFor(j);
    assert Front(base, i) + "_" + Decimal(i) == Variant(base, i);
    assert Front(base, j) + "_" + Decimal(j) == Variant(base, j);
    SameTail(Front(base, i), Decimal(i), Front(base, j), Decimal(j));
  }

  /** `unique` is the candidate if that is free, else its first free variant. */
  ghost predicate IsUnique(used: set<string>, candidate: string, unique: string) {
    && unique !in used
    && (candidate !in used ==> unique == candidate)
    && (candidate in used ==>
          exists i :: 1 <= i <= |used| + 1 && unique == Variant(candidate, i) && forall j :: 1 <= j < i ==> Variant(candidate, j) in used)
  }

  /** The unbounded search stops within |used| + 1 tries: by then the variants tried are
      more distinct strings than there are used ones. */
  method MakeUnique(used: set<string>, candidate: string) returns (unique: string)
    ensures IsUnique(used, candidate, unique)
  {
    hide Variant;
    if candidate !in used { return candidate; }
    var i := 1;
    unique := Variant(candidate, i);
    ghost var tried: set<string> := {};
    while unique in used
      invariant unique == Variant(candidate, i) && |tried| == i - 1 && tried <= used
      invariant forall j :: 1 <= j < i ==> Variant(candidate, j) in tried
      invariant forall s :: s in tried ==> exists j :: 1 <= j < i && s == Variant(candidate, j)
      decreases |used| - |tried|
    {
      if unique in tried {
        var j :| 1 <= j < i && unique == Variant(candidate, j);
        VariantsDiffer(candidate, i, j);
      }
      tried := tried + {unique};
      Within(tried, used);
      i := i + 1;
      unique := Variant(candidate, i);
    }
    Within(tried, used);
    assert unique == Variant(candidate, i) && forall j :: 1 <= j < i ==> Variant(candidate, j) in used;
  }

  // ----- the whole list

  function Members(shorts: seq<string>): set<string> {
    set s | s in shorts
  }

  /** The position at which a name is listed last. */
  function LastAt(names: seq<string>, name: string): (k: nat)
    requires name in names
    ensures k < |names| && names[k] == name && forall j :: k < j < |names| ==> names[j] != name
  {
    if names[|names| - 1] == name then |names| - 1 else LastAt(names[..|names| - 1], name)
  }

  /** The k-th name got the first free variant of its candidate. */
  ghost predicate Given(names: seq<string>, shorts: seq<string>, k: nat)
    requires k < |names| && k < |shorts|
  {
    IsUnique(Members(shorts[..k]), BaseCandidate(names[k]), shorts[k])
  }

  /** The map has for each name what it got where it is listed last. */
  ghost predicate Kept(names: seq<string>, shorts: seq<string>, m: map<string, string>)
    requires |shorts| == |names|
  {
    && (forall name :: name in m <==> name in names)
    && forall name :: name in m ==> m[name] == shorts[LastAt(names, name)]
  }

  /** Each name got the first free variant of its candidate; a name listed again keeps
      the one it got last. */
  ghost predicate Assigned(names: seq<string>, shorts: seq<string>, m: map<string, string>) {
    && |shorts| == |names|
    && (forall k :: 0 <= k < |names| ==> Given(names, shorts, k))
    && Kept(names, shorts, m)
  }

  method BuildShortNameMap(names: seq<string>) returns (m: map<string, string>, ghost shorts: seq<string>)
    ensures Assigned(names, shorts, m)
    ensures forall name :: name in m <==> name in names
    ensures forall a, b :: a in m && b in m && a != b ==> m[a] != m[b]
  {
    hide IsUnique, BaseCandidate, Assigned, Members;
    var used: set<string> := {};
    m, shorts := map[], [];
    NoNames();
    for k := 0 to |names|
      invariant used == Members(shorts) && Assigned(names[..k], shorts, m)
    {
      var candidate := BaseCandidate(names[k]);
      var unique := MakeUnique(used, candidate);
      OneMoreName(names[..k], shorts, m, names[k], unique);
      assert names[..k + 1] == names[..k] + [names[k]];
      used := used + {unique};
      shorts := shorts + [unique];
      m := m[names[k] := unique];
    }
    assert names[..|names|] == names;
    AssignedNames(names, shorts, m);
    forall a, b | a in m && b in m && a != b ensures m[a] != m[b] {
      Injective(names, shorts, m, a, b);
    }
  }

  lemma AssignedNames(names: seq<string>, shorts: seq<string>, m: map<string, string>)
    requires Assigned(names, shorts, m)
    ensures forall name :: name in m <==> name in names
  {
  }

  lemma NoNames()
    ensures Members([]) == {} && Assigned([], [], map[])
  {
  }

  lemma OneMoreName(names: seq<string>, shorts: seq<string>, m: map<string, string>, name: string, unique: string)
    requires Assigned(names, shorts, m) && IsUnique(Members(shorts), BaseCandidate(name), unique)
    ensures Assigned(names + [name], shorts + [unique], m[name := unique])
    ensures Members(shorts + [unique]) == Members(shorts) + {unique}
  {
    hide IsUnique, BaseCandidate;
    var more, longer := names + [name], shorts + [unique];
    forall k | 0 <= k < |more| ensures Given(more, longer, k) {
      assert longer[..k] == if k < |shorts| then shorts[..k] else shorts;
      assert k < |names| ==> Given(names, shorts, k);
    }
    assert more[..|more| - 1] == names;
  }

  /** No two list positions share a short name. */
  lemma ShortsDistinct(names: seq<string>, shorts: seq<string>, m: map<string, string>, i: nat, j: nat)
    requires Assigned(names, shorts, m) && i < j < |names|
    ensures shorts[i] != shorts[j]
  {
    assert shorts[i] == shorts[..j][i];
    assert Given(names, shorts, j);
  }

  /** Distinct names have distinct short names. */
  lemma Injective(names: seq<string>, shorts: seq<string>, m: map<string, string>, a: string, b: string)
    requires Assigned(names, shorts, m) && a in m && b in m && a != b
    ensures m[a] != m[b]
  {
    var i, j := LastAt(names, a), LastAt(names, b);
    if i < j {
      ShortsDistinct(names, shorts, m, i, j);
    } else {
      ShortsDistinct(names, shorts, m, j, i);
    }
  }

  /** Short names fit in 64 bytes, for lists shorter than 10^63 - 1. */
  lemma ShortsFit(names: seq<string>, shorts: seq<string>, m: map<string, string>, name: string)
    requires Assigned(names, shorts, m) && name in m && |names| + 1 < Pow10(LIMIT - 1)
    ensures |m[name]| <= LIMIT
  {
    var k := LastAt(names, name);
    var used := Members(shorts[..k]);
    assert Given(names, shorts, k);
    CandidateFits(name);
    if BaseCandidate(name) in used {
      var i :| 1 <= i <= |used| + 1 && shorts[k] == Variant(BaseCandidate(name), i);
      MembersSize(shorts[..k]);
      VariantFits(BaseCandidate(name), i);
    }
  }

  lemma {:induction false} MembersSize(shorts: seq<string>)
    ensures |Members(shorts)| <= |shorts|
  {
    if shorts != [] {
      MembersSize(shorts[1..]);
      assert Members(shorts) == Members(shorts[1..]) + {shorts[0]};
    }
  }

  /** The map is the identity exactly for lists of names that all fit, none of them twice. */
  lemma IdentityExactly(names: seq<string>, shorts: seq<string>, m: map<string, string>)
    requires Assigned(names, shorts, m) && |names| + 1 < Pow10(LIMIT - 1)
    ensures (forall name :: name in m ==> m[name] == name)
            <==> Distinct(names) && forall name :: name in names ==> |name| <= LIMIT
  {
    if Distinct(names) && forall name :: name in names ==> |name| <= LIMIT {
      SameNames(names, shorts, m, |names|);
      assert shorts[..|shorts|] == shorts && names[..|names|] == names;
    } else if i, j :| 0 <= i < j < |names| && names[i] == names[j] {
      Repeated(names, shorts, m, i, j);
    } else {
      var name :| name in names && |name| > LIMIT;
      ShortsFit(names, shorts, m, name);
      assert m[name] != name;
    }
  }

  lemma {:induction false} SameNames(names: seq<string>, shorts: seq<string>, m: map<string, string>, k: nat)
    requires Assigned(names, shorts, m) && Distinct(names) && k <= |names| && forall name :: name in names ==> |name| <= LIMIT
    ensures k <= |shorts| && shorts[..k] == names[..k]
  {
    hide BaseCandidate, IsUnique, Members, LastAt;
    if k > 0 {
      SameNames(names, shorts, m, k - 1);
      var before := shorts[..k - 1];
      assert Given(names, shorts, k - 1);
      assert names[k - 1] in names && names[k - 1] !in before;
      FreeName(before, names[k - 1], shorts[k - 1]);
      OneLonger(names, shorts, k);
    }
  }

  lemma OneLonger(names: seq<string>, shorts: seq<string>, k: nat)
    requires 0 < k <= |names| && k <= |shorts| && shorts[..k - 1] == names[..k - 1] && shorts[k - 1] == names[k - 1]
    ensures shorts[..k] == names[..k]
  {
    assert shorts[..k] == shorts[..k - 1] + [shorts[k - 1]];
    assert names[..k] == names[..k - 1] + [names[k - 1]];
  }

  lemma FreeName(before: seq<string>, name: string, short: string)
    requires IsUnique(Members(before), BaseCandidate(name), short) && name !in before && |name| <= LIMIT
    ensures short == name
  {
  }

  lemma Repeated(names: seq<string>, shorts: seq<string>, m: map<string, string>, i: nat, j: nat)
    requires Assigned(names, shorts, m) && i < j < |names| && names[i] == names[j] && |names| + 1 < Pow10(LIMIT - 1)
    ensures m[names[i]] != names[i]
  {
    var name := names[i];
    var k := LastAt(names, name);
    if |name| > LIMIT {
      ShortsFit(names, shorts, m, name);
    } else {
      assert Given(names, shorts, i) && Given(names, shorts, k);
      CandidateFits(name);
      assert name in Members(shorts[..k]) by {
        if name in Members(shorts[..i]) {
          var p :| 0 <= p < i && shorts[p] == name;
          assert shorts[..k][p] == name;
        } else {
          assert shorts[..k][i] == name;
        }
      }
    }
  }

  // ----- and back

  /** `rev` maps every short name back, as buildReverseMapFromOriginalOpenAI fills it. */
  ghost predicate Reverses(rev: map<string, string>, m: map<string, string>) {
    && (forall short :: short in rev <==> exists name :: name in m && m[name] == short)
    && forall short :: short in rev ==> rev[short] in m && m[rev[short]] == short
  }

  method BuildReverseMap(m: map<string, string>) returns (rev: map<string, string>)
    ensures Reverses(rev, m)
  {
    rev := map[];
    var todo := m.Keys;
    while todo != {}
      invariant todo <= m.Keys
      invariant forall name :: name in m && name !in todo ==> m[name] in rev
      invariant forall short :: short in rev ==> rev[short] in m && m[rev[short]] == short
    {
      var orig :| orig in todo;
      rev := rev[m[orig] := orig];
      todo := todo - {orig};
    }
  }

  /** The name the converters show for a name in a response. */
  function Restored(rev: map<string, string>, name: string): string {
    if name in rev then rev[name] else name
  }

  /** Every name sent upstream comes back as it was. */
  lemma RoundTrip(names: seq<string>, shorts: seq<string>, m: map<string, string>, rev: map<string, string>, name: string)
    requires Assigned(names, shorts, m) && Reverses(rev, m) && name in names
    ensures Restored(rev, m[name]) == name
  {
    assert m[name] in rev;
    if rev[m[name]] != name {
      Injective(names, shorts, m, rev[m[name]], name);
    }
  }
}
