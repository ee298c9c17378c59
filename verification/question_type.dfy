/** The `QuestionType` enumeration of schemas.py: five question kinds, each
    with an English value and a Chinese alias, and the `normalize_question_type`
    validator that maps request input onto members. */
module QuestionType {
  import opened Wrappers

  datatype Kind = SingleChoice | MultiChoice | FillBlank | BriefAnswer | Calculation

  /** The English tag of a kind, which is also its enum member's value. */
  function EnglishTag(k: Kind): string {
    match k
    case SingleChoice => "single_choice"
    case MultiChoice => "multi_choice"
    case FillBlank => "fill_blank"
    case BriefAnswer => "brief_answer"
    case Calculation => "calculation"
  }

  /** The Chinese tag of a kind, declared in the enum as an alias name. */
  function ChineseTag(k: Kind): string {
    match k
    case SingleChoice => "单选题"
    case MultiChoice => "多选题"
    case FillBlank => "填空题"
    case BriefAnswer => "简答题"
    case Calculation => "计算题"
  }

  /** The canonical member name of a kind. */
  function MemberName(k: Kind): string {
    match k
    case SingleChoice => "SINGLE_CHOICE"
    case MultiChoice => "MULTI_CHOICE"
    case FillBlank => "FILL_BLANK"
    case BriefAnswer => "BRIEF_ANSWER"
    case Calculation => "CALCULATION"
  }

  /** True when `tag` names `k` in either language. */
  predicate IsTagOf(tag: string, k: Kind) {
    tag == EnglishTag(k) || tag == ChineseTag(k)
  }

  /** One line `NAME = "value"` of the enum's class body. */
  datatype Declaration = Declaration(name: string, value: string)

  /** The member a kind stands for: its canonical name and its value. */
  function MemberOf(k: Kind): Declaration {
    Declaration(MemberName(k), EnglishTag(k))
  }

  /** The alias line of a kind: its Chinese name with the English value. */
  function AliasOf(k: Kind): Declaration {
    Declaration(ChineseTag(k), EnglishTag(k))
  }

  /** The kinds in declaration order. */
  function KindAt(i: nat): Kind
    requires i < 5
  {
    if i == 0 then SingleChoice
    else if i == 1 then MultiChoice
    else if i == 2 then FillBlank
    else if i == 3 then BriefAnswer
    else Calculation
  }

  /** The first five lines of the class body: one member per kind. */
  const Canonical: seq<Declaration> := [
    MemberOf(SingleChoice), MemberOf(MultiChoice), MemberOf(FillBlank), MemberOf(BriefAnswer), MemberOf(Calculation)
  ]

  /** The last five lines: the Chinese names, declared with the same values
      as their English counterparts. */
  const Aliases: seq<Declaration> := [
    AliasOf(SingleChoice), AliasOf(MultiChoice), AliasOf(FillBlank), AliasOf(BriefAnswer), AliasOf(Calculation)
  ]

  /** The whole class body of `QuestionType`, in source order. */
  const Declarations: seq<Declaration> := Canonical + Aliases

  lemma DeclarationAt(i: nat)
    requires i < 5
    ensures |Canonical| == |Aliases| == 5
    ensures Canonical[i] == MemberOf(KindAt(i)) && Aliases[i] == AliasOf(KindAt(i))
  {
  }

  /** The three names of a kind are pairwise different from one another and
      from every name of every other kind: already their first characters
      differ. */
  lemma NamesApart(k1: Kind, k2: Kind)
    ensures EnglishTag(k1) == EnglishTag(k2) ==> k1 == k2
    ensures MemberName(k1) == MemberName(k2) ==> k1 == k2
    ensures ChineseTag(k1) == ChineseTag(k2) ==> k1 == k2
    ensures EnglishTag(k1) != MemberName(k2) && EnglishTag(k1) != ChineseTag(k2) && MemberName(k1) != ChineseTag(k2)
  {
    assert EnglishTag(k1)[0] != MemberName(k2)[0];
    assert EnglishTag(k1)[0] != ChineseTag(k2)[0];
    assert MemberName(k1)[0] != ChineseTag(k2)[0];
    if k1 != k2 {
      assert EnglishTag(k1)[0] != EnglishTag(k2)[0];
      assert MemberName(k1)[0] != MemberName(k2)[0];
      assert ChineseTag(k1)[0] != ChineseTag(k2)[0];
    }
  }

  /** Every line of the class body is the member or the alias of a kind, and
      every kind has both. */
  lemma DeclarationKinds(d: Declaration)
    ensures d in Canonical <==> exists k :: d == MemberOf(k)
    ensures d in Aliases <==> exists k :: d == AliasOf(k)
  {
    if d in Canonical {
      var i :| 0 <= i < 5 && Canonical[i] == d;
      DeclarationAt(i);
    }
    if d in Aliases {
      var i :| 0 <= i < 5 && Aliases[i] == d;
      DeclarationAt(i);
    }
  }

  /** The values declared in `ds`. */
  function Values(ds: seq<Declaration>): (r: set<string>)
    ensures forall d :: d in ds ==> d.value in r
    ensures forall x :: x in r ==> exists d :: d in ds && d.value == x
  {
    if |ds| == 0 then {} else {ds[0].value} + Values(ds[1..])
  }

  predicate ValuesDistinct(ds: seq<Declaration>) {
    forall i, j :: 0 <= i < j < |ds| ==> ds[i].value != ds[j].value
  }

  /** The declarations that create a new member, in order: an enum class body
      creates a member at the first declaration of each value, and every later
      declaration of an already seen value only adds an alias name for it.
      `seen` holds the values declared before `ds`. */
  function FirstDeclarations(ds: seq<Declaration>, seen: set<string>): (r: seq<Declaration>)
    ensures forall d :: d in r ==> d in ds && d.value !in seen
    ensures forall d :: d in ds && d.value !in seen ==> d.value in Values(r)
    ensures ValuesDistinct(r)
    decreases |ds|
  {
    if |ds| == 0 then []
    else if ds[0].value in seen then
      FirstDeclarations(ds[1..], seen)
    else
      [ds[0]] + FirstDeclarations(ds[1..], seen + {ds[0].value})
  }

  /** The members iteration over the enum yields: aliases are skipped. */
  function Members(): seq<Declaration> {
    FirstDeclarations(Declarations, {})
  }

  lemma {:induction false} FirstDeclarationsOfFresh(ds: seq<Declaration>, seen: set<string>)
    requires ValuesDistinct(ds) && Values(ds) !! seen
    ensures FirstDeclarations(ds, seen) == ds
    decreases |ds|
  {
    if |ds| > 0 {
      assert ds[0].value !in Values(ds[1..]);
      FirstDeclarationsOfFresh(ds[1..], seen + {ds[0].value});
    }
  }

  lemma {:induction false} FirstDeclarationsOfSeen(ds: seq<Declaration>, seen: set<string>)
    requires Values(ds) <= seen
    ensures FirstDeclarations(ds, seen) == []
    decreases |ds|
  {
    if |ds| > 0 {
      FirstDeclarationsOfSeen(ds[1..], seen);
    }
  }

  lemma {:induction false} FirstDeclarationsConcat(a: seq<Declaration>, b: seq<Declaration>, seen: set<string>)
    ensures FirstDeclarations(a + b, seen) == FirstDeclarations(a, seen) + FirstDeclarations(b, seen + Values(a))
    decreases |a|
  {
    if |a| == 0 {
      assert a + b == b;
      assert seen + Values(a) == seen;
    } else {
      assert (a + b)[1..] == a[1..] + b;
      assert (a + b)[0] == a[0];
      if a[0].value in seen {
        FirstDeclarationsConcat(a[1..], b, seen);
        assert seen + Values(a[1..]) == seen + Values(a);
      } else {
        FirstDeclarationsConcat(a[1..], b, seen + {a[0].value});
        assert seen + {a[0].value} + Values(a[1..]) == seen + Values(a);
      }
    }
  }

  /** Iterating over `QuestionType` yields exactly the five English members,
      in declaration order: the Chinese names are aliases, not members. */
  lemma CanonicalValuesDistinct()
    ensures ValuesDistinct(Canonical)
  {
    forall i, j | 0 <= i < j < |Canonical|
      ensures Canonical[i].value != Canonical[j].value
    {
      DeclarationAt(i);
      DeclarationAt(j);
      NamesApart(KindAt(i), KindAt(j));
    }
  }

  lemma AliasValuesDeclared()
    ensures Values(Aliases) <= Values(Canonical)
  {
    forall x | x in Values(Aliases) ensures x in Values(Canonical) {
      var d :| d in Aliases && d.value == x;
      DeclarationKinds(d);
      var k :| d == AliasOf(k);
      DeclarationKinds(MemberOf(k));
    }
  }

  lemma MembersAreCanonical()
    ensures Members() == Canonical
  {
    CanonicalValuesDistinct();
    AliasValuesDeclared();
    FirstDeclarationsOfRepeats(Canonical, Aliases);
  }

  /** A body whose values are first declared without repetition and then only
      repeated creates exactly the members of its first part. */
  lemma FirstDeclarationsOfRepeats(a: seq<Declaration>, b: seq<Declaration>)
    requires ValuesDistinct(a) && Values(b) <= Values(a)
    ensures FirstDeclarations(a + b, {}) == a
  {
    FirstDeclarationsConcat(a, b, {});
    FirstDeclarationsOfFresh(a, {});
    FirstDeclarationsOfSeen(b, {} + Values(a));
  }

  /** Each Chinese name is declared with the value of its English counterpart,
      so it is an alias of that member. */
  lemma ChineseNamesAreAliases(k: Kind)
    ensures AliasOf(k) in Declarations && MemberOf(k) in Members()
    ensures AliasOf(k) !in Members()
    ensures AliasOf(k).value == MemberOf(k).value
  {
    AliasNotCanonical(k);
    MembersAreCanonical();
  }

  lemma AliasNotCanonical(k: Kind)
    ensures AliasOf(k) in Declarations && MemberOf(k) in Canonical && AliasOf(k) !in Canonical
  {
    DeclarationKinds(MemberOf(k));
    DeclarationKinds(AliasOf(k));
    forall k' ensures MemberOf(k') != AliasOf(k) {
      NamesApart(k', k);
    }
  }

  /** What reaches the `question_type` validator: an enum member, a string,
      or any other JSON value. */
  datatype TypeInput = Member(kind: Kind) | Given(text: string) | NonText

  /** The first declaration in `ds` whose value or name equals `v`. */
  function FindDeclaration(ds: seq<Declaration>, v: string): (r: Option<Declaration>)
    ensures r.Some? ==> r.value in ds && (r.value.value == v || r.value.name == v)
    ensures r.None? ==> forall d :: d in ds ==> d.value != v && d.name != v
  {
    if |ds| == 0 then None
    else if ds[0].value == v || ds[0].name == v then Some(ds[0])
    else FindDeclaration(ds[1..], v)
  }

  lemma EnglishTagsApart()
    ensures forall k1, k2 :: EnglishTag(k1) == EnglishTag(k2) ==> k1 == k2
  {
    forall k1, k2 ensures EnglishTag(k1) == EnglishTag(k2) ==> k1 == k2 {
      NamesApart(k1, k2);
    }
  }

  /** The kind whose member carries `value`: the enum's lookup by value. */
  function KindOfValue(value: string): (r: Option<Kind>)
    ensures r.Some? ==> EnglishTag(r.value) == value
    ensures r.None? ==> forall k :: value != EnglishTag(k)
  {
    EnglishTagsApart();
    if value == EnglishTag(SingleChoice) then Some(SingleChoice)
    else if value == EnglishTag(MultiChoice) then Some(MultiChoice)
    else if value == EnglishTag(FillBlank) then Some(FillBlank)
    else if value == EnglishTag(BriefAnswer) then Some(BriefAnswer)
    else if value == EnglishTag(Calculation) then Some(Calculation)
    else None
  }

  /** The member a name-or-value match in `ds` resolves to, if any. */
  function MatchIn(ds: seq<Declaration>, v: TypeInput): TypeInput {
    match v
    case Given(s) =>
      (match FindDeclaration(ds, s)
       case Some(d) =>
         (match KindOfValue(d.value)
          case Some(k) => Member(k)
          case None => v)
       case None => v)
    case _ => v
  }

  /** The lines a lookup searches: the iterated members only, or the whole
      class body with the alias names. */
  function Searched(withAliases: bool): seq<Declaration> {
    if withAliases then Declarations else Canonical
  }

  /** `s` is a name under which the lookup finds the member of `k`. */
  predicate NamesKind(withAliases: bool, s: string, k: Kind) {
    s == EnglishTag(k) || s == MemberName(k) || (withAliases && s == ChineseTag(k))
  }

  lemma SearchedKinds(withAliases: bool, d: Declaration)
    requires d in Searched(withAliases)
    ensures exists k :: d == MemberOf(k) || (withAliases && d == AliasOf(k))
  {
    DeclarationKinds(d);
  }

  /** A line the lookup stops at for a name of `k` belongs to `k`. */
  lemma MatchedLineKind(withAliases: bool, s: string, k: Kind, k': Kind, d: Declaration)
    requires NamesKind(withAliases, s, k)
    requires d == MemberOf(k') || (withAliases && d == AliasOf(k'))
    requires d.value == s || d.name == s
    ensures k' == k
  {
    NamesApart(k, k');
    NamesApart(k', k);
  }

  lemma MatchInFound(ds: seq<Declaration>, s: string, k: Kind)
    requires FindDeclaration(ds, s).Some? && FindDeclaration(ds, s).value.value == EnglishTag(k)
    ensures MatchIn(ds, Given(s)) == Member(k)
  {
    EnglishTagsApart();
  }

  /** The lookup finds the member of `k` exactly when `s` names `k`. */
  lemma MatchKind(withAliases: bool, s: string, k: Kind)
    requires NamesKind(withAliases, s, k)
    ensures MatchIn(Searched(withAliases), Given(s)) == Member(k)
  {
    var ds := Searched(withAliases);
    var line := if withAliases && s == ChineseTag(k) then AliasOf(k) else MemberOf(k);
    assert line in ds by {
      DeclarationKinds(line);
    }
    var r := FindDeclaration(ds, s);
    assert r.Some?;
    SearchedKinds(withAliases, r.value);
    var k' :| r.value == MemberOf(k') || (withAliases && r.value == AliasOf(k'));
    MatchedLineKind(withAliases, s, k, k', r.value);
    MatchInFound(ds, s, k);
  }

  /** A string that names no kind is returned unchanged. */
  lemma MatchNone(withAliases: bool, s: string)
    requires forall k :: !NamesKind(withAliases, s, k)
    ensures MatchIn(Searched(withAliases), Given(s)) == Given(s)
  {
    var r := FindDeclaration(Searched(withAliases), s);
    if r.Some? {
      SearchedKinds(withAliases, r.value);
      var k' :| r.value == MemberOf(k') || (withAliases && r.value == AliasOf(k'));
      assert NamesKind(withAliases, s, k');
    }
  }

  lemma NormalizeFacts(withAliases: bool, v: TypeInput)
    ensures forall k :: v.Given? && NamesKind(withAliases, v.text, k) ==> MatchIn(Searched(withAliases), v) == Member(k)
    ensures v.Given? && (forall k :: !NamesKind(withAliases, v.text, k)) ==> MatchIn(Searched(withAliases), v) == v
  {
    forall k | v.Given? && NamesKind(withAliases, v.text, k)
      ensures MatchIn(Searched(withAliases), v) == Member(k)
    {
      MatchKind(withAliases, v.text, k);
    }
    if v.Given? && (forall k :: !NamesKind(withAliases, v.text, k)) {
      MatchNone(withAliases, v.text);
    }
  }

  /** Searching the iterated members is searching the canonical lines. */
  lemma MatchMembers(v: TypeInput)
    ensures MatchIn(Members(), v) == MatchIn(Searched(false), v)
  {
    MembersAreCanonical();
  }

  /** `normalize_question_type` as written: members pass through, strings are
      compared with the value and name of each member that iteration yields,
      and anything unmatched is returned unchanged. */
  function NormalizeQuestionType(v: TypeInput): (r: TypeInput)
    ensures v.Member? || v.NonText? ==> r == v
    ensures v.Given? ==> r.Given? || r.Member?
    ensures forall k :: v == Given(EnglishTag(k)) || v == Given(MemberName(k)) ==> r == Member(k)
    ensures v.Given? && (forall k :: v.text != EnglishTag(k) && v.text != MemberName(k)) ==> r == v
  {
    MatchMembers(v);
    NormalizeFacts(false, v);
    MatchIn(Members(), v)
  }

  /** The Chinese tags match no iterated member, so the validator returns
      them as plain strings, although its comment promises to match them. */
  lemma ChineseTagNotNormalized(k: Kind)
    ensures NormalizeQuestionType(Given(ChineseTag(k))) == Given(ChineseTag(k))
  {
    forall k' ensures !NamesKind(false, ChineseTag(k), k') {
      NamesApart(k', k);
    }
    MembersAreCanonical();
    MatchNone(false, ChineseTag(k));
  }

  /** The validator as its comment describes it: the lookup also covers the
      alias names, as iteration over `QuestionType.__members__` would. */
  function NormalizeQuestionTypeWithAliases(v: TypeInput): (r: TypeInput)
    ensures v.Member? || v.NonText? ==> r == v
    ensures v.Given? ==> r.Given? || r.Member?
    ensures forall k :: v == Given(EnglishTag(k)) || v == Given(MemberName(k)) || v == Given(ChineseTag(k)) ==> r == Member(k)
    ensures v.Given? && (forall k :: v.text != EnglishTag(k) && v.text != MemberName(k) && v.text != ChineseTag(k)) ==> r == v
  {
    NormalizeFacts(true, v);
    MatchIn(Declarations, v)
  }

  /** With the alias lookup both tags of a kind normalise to the same member,
      whichever language the caller used. */
  lemma AliasesNormalizeAlike(k: Kind)
    ensures NormalizeQuestionTypeWithAliases(Given(ChineseTag(k))) == NormalizeQuestionTypeWithAliases(Given(EnglishTag(k)))
  {
  }
}
