/**
  The featured-model page (src/app/modelo-destaque/page.tsx). It reads the
  `modelo` query parameter, parses it with parseInt, and adopts it as
  `modeloAtual` only when it is a valid index into its own three-entry list.
  This module also connects the page to the carousel: the link the carousel
  pushes brings the page to the model the carousel was showing.
 */
module ModeloDestaque {
  import opened JsRuntime
  import ModelCarousel

  const Modelos: seq<string> := [
    "/3DMODELS/modelo1.glb",
    "/3DMODELS/modelo2.glb",
    "/3DMODELS/modelo3.glb"
  ]

  const ParamName: string := "modelo"

  /** `searchParams.get('modelo') || '0'`: absent and empty both read as "0". */
  function ParamText(param: Option<string>): (t: string)
    ensures param == None || param == Some("") ==> t == "0"
    ensures param.Some? && param.value != "" ==> t == param.value
  {
    match param
    case None => "0"
    case Some(v) => if v == "" then "0" else v
  }

  /** The effect's guard: a parsed number is taken only when it indexes the list. */
  function Accept(current: int, parsed: Option<int>): int {
    match parsed
    case None => current
    case Some(p) => if 0 <= p < |Modelos| then p else current
  }

  /** The effect on the search parameters: the index the page holds once it has run. */
  function Adopt(current: int, param: Option<string>): int {
    Accept(current, ParseInt(ParamText(param)))
  }

  /** The heading counts from one. */
  function Heading(modeloAtual: nat): string {
    "Modelo " + (ShowNat(modeloAtual + 1) + " em Destaque")
  }

  // ---------------------------------------------------------------------
  // Properties
  // ---------------------------------------------------------------------

  /** An absent or empty parameter selects the first model. */
  lemma AbsentSelectsFirst(current: int, param: Option<string>)
    requires param == None || param == Some("")
    ensures Adopt(current, param) == 0
  {
    assert ParamText(param) == "0";
    ParseIntZero();
  }

  /** A parsed number that indexes the list is adopted. */
  lemma AdoptInRange(current: int, p: int)
    requires 0 <= p < |Modelos|
    ensures Accept(current, Some(p)) == p
  {
  }

  /** NaN or a number outside the list leaves the current model in place. */
  lemma AdoptIgnores(current: int, parsed: Option<int>)
    requires parsed.None? || parsed.value < 0 || parsed.value >= |Modelos|
    ensures Accept(current, parsed) == current
  {
  }

  /** Whatever the query says, the index stays valid for the model list. */
  lemma AdoptKeepsInRange(current: int, param: Option<string>)
    requires 0 <= current < |Modelos|
    ensures 0 <= Adopt(current, param) < |Modelos|
  {
  }

  /** Text after the digits is ignored: "2abc" selects the third model. */
  lemma TrailingTextIgnored(current: int, index: nat, rest: string)
    requires index < |Modelos|
    requires rest == [] || (!IsRadixDigit(rest[0], 10) && rest[0] != 'x' && rest[0] != 'X')
    ensures Adopt(current, Some(ShowNat(index) + rest)) == index
  {
    ParseIntShowNat(index, rest);
  }

  /** A negative number is ignored, so the current model stays. */
  lemma NegativeIgnored(current: int, n: nat)
    requires n > 0
    ensures Adopt(current, Some("-" + ShowNat(n))) == current
  {
    var t := "-" + ShowNat(n);
    assert ParamText(Some(t)) == t;
    ParseIntNegative([], n);
    assert [] + "-" + ShowNat(n) == t;
    assert ParseInt(t) == Some(-(n as int));
  }

  /** The heading reads back as the one-based position. */
  lemma HeadingIsOneBased(modeloAtual: nat)
    requires modeloAtual < |Modelos|
    ensures |Heading(modeloAtual)| > 7 && Heading(modeloAtual)[..7] == "Modelo "
    ensures ParseInt(Heading(modeloAtual)[7..]) == Some(modeloAtual + 1)
  {
    var tail := " em Destaque";
    SliceAtSeam("Modelo ", ShowNat(modeloAtual + 1) + tail);
    assert tail[0] == ' ';
    ParseIntShowNat(modeloAtual + 1, tail);
  }

  /**
    The carousel's "select" link, read back by the page, selects the model
    the carousel was showing: the query value is the zero-based index in
    decimal, it parses back to that index, and the two pages list the same
    models.
   */
  lemma SelectRoundTrip(s: ModelCarousel.CarouselState, current: int)
    requires ModelCarousel.Inv(s)
    ensures SearchParam(QueryOf(ModelCarousel.SelectUrl(s)), ParamName) == Some(ShowNat(s.currentIndex))
    ensures Adopt(current, SearchParam(QueryOf(ModelCarousel.SelectUrl(s)), ParamName)) == s.currentIndex
    ensures Modelos[s.currentIndex] == ModelCarousel.Models[s.currentIndex]
  {
    var digits := ShowNat(s.currentIndex);
    SelectValue(s);
    ParseIntOfShowNat(s.currentIndex);
    assert ParamText(Some(digits)) == digits;
    SameModels();
  }

  /** The value of `modelo` in the carousel's link is the index in decimal. */
  lemma SelectValue(s: ModelCarousel.CarouselState)
    requires ModelCarousel.Inv(s)
    ensures SearchParam(QueryOf(ModelCarousel.SelectUrl(s)), ParamName) == Some(ShowNat(s.currentIndex))
  {
    var digits := ShowNat(s.currentIndex);
    var url := ModelCarousel.SelectUrl(s);
    assert url == ModelCarousel.SelectPrefix + digits;
    SelectQuery(digits);
    assert QueryOf(url) == ParamName + "=" + digits;
    assert '&' !in digits by {
      assert forall i :: 0 <= i < |digits| ==> IsRadixDigit(digits[i], 10);
    }
    assert '=' !in ParamName && '&' !in ParamName;
    SearchParamSingle(ParamName, digits);
  }

  /** Both screens list the same three models in the same order. */
  lemma SameModels()
    ensures Modelos == ModelCarousel.Models
  {
  }

  /** The query of the carousel's link is "modelo=" and the digits. */
  lemma SelectQuery(digits: string)
    requires AllDigits(digits, 10)
    ensures QueryOf(ModelCarousel.SelectPrefix + digits) == ParamName + "=" + digits
  {
    var path := "/modelo-destaque";
    var query := ParamName + "=" + digits;
    var url := ModelCarousel.SelectPrefix + digits;
    assert ModelCarousel.SelectPrefix == path + ['?'] + (ParamName + "=");
    assert url == path + ['?'] + query;
    assert '#' !in ModelCarousel.SelectPrefix;
    assert '#' !in digits by {
      assert forall i :: 0 <= i < |digits| ==> IsRadixDigit(digits[i], 10);
    }
    BeforeAbsent(url, '#');
    assert '?' !in path;
    SplitAtFirst(path, '?', query);
  }

  // ---------------------------------------------------------------------
  // The page
  // ---------------------------------------------------------------------

  class FeaturedPage {
    var modeloAtual: int
    const modelos: seq<string>

    ghost predicate Valid()
      reads this
    {
      modelos == Modelos && 0 <= modeloAtual < |modelos|
    }

    constructor ()
      ensures Valid() && modeloAtual == 0
    {
      modeloAtual := 0;
      modelos := Modelos;
    }

    /** The effect that runs when the search parameters change. */
    method ApplySearchParams(param: Option<string>)
      requires Valid()
      modifies this
      ensures Valid() && modeloAtual == Adopt(old(modeloAtual), param)
    {
      var modeloIndex := ParseInt(ParamText(param));
      if modeloIndex.Some? && modeloIndex.value >= 0 && modeloIndex.value < |modelos| {
        modeloAtual := modeloIndex.value;
      }
    }

    /** modelPath handed to the viewer. */
    function ModelPath(): (path: string)
      reads this
      requires Valid()
      ensures path in Modelos && path == Modelos[modeloAtual]
    {
      modelos[modeloAtual]
    }
  }
}
