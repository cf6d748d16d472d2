/**
 * The locator's browser script (assets/js/frontend.js), in the parts that
 * decide something: the phone mask on the lead form, the query string of the
 * unit search, the UTM and origin fill of the lead form, the default result
 * limit, and the carousel's arrow buttons.
 *
 * The page is modelled by the few DOM properties these parts read and write:
 * the lead form's named input values (`LeadForm`), and the two arrow buttons
 * (`NavButton`) beside the carousel (`Carousel`). Rendering, the modal, the
 * REST calls and geolocation are not modelled.
 */
module Frontend {
  import Php

  // ---------------------------------------------------------------------------
  // setupPhoneMask
  // ---------------------------------------------------------------------------

  /** `digits.slice(0, 11)`. */
  function First11(d: string): (r: string)
    ensures |r| <= 11
    ensures |d| <= 11 ==> r == d
    ensures |d| > 11 ==> r == d[..11]
  {
    if |d| <= 11 then d else d[..11]
  }

  /**
   * The formatting the input handler applies to the (at most 11) digits:
   * "(" + two digits + ") " once there are two, and a '-' before the last
   * four characters once the text is at least ten characters long.
   */
  function FormatPhone(d: string): (r: string)
    ensures Php.AllDigits(d) ==> forall i :: 0 <= i < |r| ==> Php.IsDigit(r[i]) || r[i] in "() -"
  {
    var s := if |d| >= 2 then "(" + d[..2] + ") " + d[2..] else d;
    if |s| >= 10 then s[..|s| - 4] + "-" + s[|s| - 4..] else s
  }

  /** The value the `input` handler leaves in the phone field. */
  function PhoneMask(value: string): (r: string)
    ensures forall i :: 0 <= i < |r| ==> Php.IsDigit(r[i]) || r[i] in "() -"
  {
    FormatPhone(First11(Php.Digits(value)))
  }

  /**
   * The masked value in full: the digits alone below two, "(dd) rest" from
   * two to six, and "(dd) middle-last4" from seven on.
   */
  lemma PhoneMaskShape(value: string)
    ensures var d := First11(Php.Digits(value));
      (|d| < 2 ==> PhoneMask(value) == d)
      && (2 <= |d| < 7 ==> PhoneMask(value) == "(" + d[..2] + ") " + d[2..])
      && (|d| >= 7 ==> PhoneMask(value) == "(" + d[..2] + ") " + d[2..|d| - 4] + "-" + d[|d| - 4..])
  {
    var d := First11(Php.Digits(value));
    if |d| >= 7 {
      var s := "(" + d[..2] + ") " + d[2..];
      assert |s| == |d| + 3;
      assert s[..|s| - 4] == "(" + d[..2] + ") " + d[2..|d| - 4];
      assert s[|s| - 4..] == d[|d| - 4..];
    }
  }

  /** The punctuation the mask adds holds no digit. */
  lemma DigitsOfPunctuation()
    ensures Php.Digits("(") == "" && Php.Digits(") ") == "" && Php.Digits("-") == ""
  {
    assert "(" [1..] == "";
    assert ") " [1..] == " " && " " [1..] == "";
    assert "-" [1..] == "";
  }

  /** The digits of "(" + a + ") " + b are a + b. */
  lemma DigitsOfAreaCode(a: string, b: string)
    requires Php.AllDigits(a) && Php.AllDigits(b)
    ensures Php.Digits("(" + a + ") " + b) == a + b
  {
    DigitsOfPunctuation();
    Php.DigitsOfDigits(a);
    Php.DigitsOfDigits(b);
    var t1 := "(" + a;
    var t2 := t1 + ") ";
    Php.DigitsAppend("(", a);
    assert Php.Digits(t1) == a by { assert "" + a == a; }
    Php.DigitsAppend(t1, ") ");
    assert Php.Digits(t2) == a by { assert a + "" == a; }
    Php.DigitsAppend(t2, b);
    assert t2 + b == "(" + a + ") " + b;
  }

  /** The digits of t + "-" + c are those of t, then c. */
  lemma DigitsOfDash(t: string, c: string)
    requires Php.AllDigits(c)
    ensures Php.Digits(t + "-" + c) == Php.Digits(t) + c
  {
    DigitsOfPunctuation();
    Php.DigitsOfDigits(c);
    Php.DigitsAppend(t, "-");
    Php.DigitsAppend(t + "-", c);
  }

  /** The mask keeps exactly the first eleven digits of what was typed, in order. */
  lemma PhoneMaskDigits(value: string)
    ensures Php.Digits(PhoneMask(value)) == First11(Php.Digits(value))
  {
    var d := First11(Php.Digits(value));
    assert Php.AllDigits(d);
    PhoneMaskShape(value);
    if |d| < 2 {
      Php.DigitsOfDigits(d);
    } else if |d| < 7 {
      assert d == d[..2] + d[2..];
      DigitsOfAreaCode(d[..2], d[2..]);
    } else {
      var a, b, c := d[..2], d[2..|d| - 4], d[|d| - 4..];
      assert d == a + b + c;
      DigitsOfAreaCode(a, b);
      DigitsOfDash("(" + a + ") " + b, c);
    }
  }

  /** Typing into an already masked field and re-masking changes nothing. */
  lemma PhoneMaskIdempotent(value: string)
    ensures PhoneMask(PhoneMask(value)) == PhoneMask(value)
  {
    PhoneMaskDigits(value);
  }

  /** A dash appears exactly when at least seven digits were kept, as the fifth character from the end. */
  lemma PhoneMaskDash(value: string)
    ensures var d := First11(Php.Digits(value)); var r := PhoneMask(value);
      ('-' in r <==> |d| >= 7) && (|d| >= 7 ==> r[|r| - 5] == '-')
    ensures |PhoneMask(value)| <= 15
  {
    var d := First11(Php.Digits(value));
    var r := PhoneMask(value);
    PhoneMaskShape(value);
    assert Php.AllDigits(d);
    if |d| < 2 {
      assert forall i :: 0 <= i < |r| ==> r[i] == d[i];
    } else if |d| < 7 {
      assert forall i :: 5 <= i < |r| ==> r[i] == d[i - 3];
    } else {
      assert r[|r| - 5] == '-';
    }
  }

  // ---------------------------------------------------------------------------
  // fetchUnits: the query string
  // ---------------------------------------------------------------------------

  /** A JavaScript value as the search parameters hold it. */
  datatype JsValue = Undefined | Null | Text(s: string) | Number(n: real) | Boolean(b: bool)

  /** The values `fetchUnits` leaves out of the query: undefined, null and the empty string. */
  predicate Omitted(v: JsValue)
  {
    v == Undefined || v == Null || v == Text("")
  }

  /** The entries appended to the `URLSearchParams`, in the object's order. */
  function KeptParams(params: seq<(string, JsValue)>): (r: seq<(string, JsValue)>)
    ensures |r| <= |params|
  {
    if params == [] then []
    else
      var last := params[|params| - 1];
      KeptParams(params[..|params| - 1]) + (if Omitted(last.1) then [] else [last])
  }

  /** Every appended entry is an entry of the object with a value worth sending. */
  lemma {:induction false} KeptParamsSound(params: seq<(string, JsValue)>)
    ensures forall e :: e in KeptParams(params) ==> e in params && !Omitted(e.1)
  {
    if params != [] {
      KeptParamsSound(params[..|params| - 1]);
      assert forall e :: e in params[..|params| - 1] ==> e in params;
    }
  }

  /** No entry with a value worth sending is lost. */
  lemma {:induction false} KeptParamsComplete(params: seq<(string, JsValue)>, i: nat)
    requires i < |params| && !Omitted(params[i].1)
    ensures params[i] in KeptParams(params)
  {
    var front := params[..|params| - 1];
    if i < |front| {
      assert front[i] == params[i];
      KeptParamsComplete(front, i);
    }
  }

  /** Filtering two parts is filtering their concatenation: the order is kept. */
  lemma {:induction false} KeptParamsAppend(a: seq<(string, JsValue)>, b: seq<(string, JsValue)>)
    ensures KeptParams(a + b) == KeptParams(a) + KeptParams(b)
    decreases |b|
  {
    if b == [] {
      assert a + b == a;
    } else {
      var front := b[..|b| - 1];
      assert (a + b)[..|a + b| - 1] == a + front;
      KeptParamsAppend(a, front);
    }
  }

  /** `Object.entries(params).forEach(...)`, appending what is not omitted. */
  method SearchParams(params: seq<(string, JsValue)>) returns (appended: seq<(string, JsValue)>)
    ensures appended == KeptParams(params)
  {
    appended := [];
    var i := 0;
    while i < |params|
      invariant 0 <= i <= |params|
      invariant appended == KeptParams(params[..i])
    {
      assert params[..i + 1][..i] == params[..i];
      if !Omitted(params[i].1) {
        appended := appended + [params[i]];
      }
      i := i + 1;
    }
    assert params[..i] == params;
  }

  // ---------------------------------------------------------------------------
  // defaults.limit
  // ---------------------------------------------------------------------------

  /**
   * `Math.max(data.settings.results_limit || 0, 50)`; `resultsLimit` is the
   * configured limit (a non-negative integer on the PHP side), `None` when
   * the setting is missing.
   */
  function DefaultLimit(resultsLimit: Php.Option<int>): (r: int)
    ensures r >= 50
    ensures resultsLimit.Some? ==> r >= resultsLimit.value
    ensures r == 50 || (resultsLimit.Some? && r == resultsLimit.value)
  {
    var limit := if resultsLimit.Some? then resultsLimit.value else 0;
    if limit > 50 then limit else 50
  }

  // ---------------------------------------------------------------------------
  // populateUtms
  // ---------------------------------------------------------------------------

  /** The UTM inputs, in the order the script visits them. */
  const UtmFields: seq<string> := ["utm_source", "utm_medium", "utm_campaign", "utm_term", "utm_content"]

  /** The lead form's named inputs and their current values. */
  class LeadForm {
    var inputs: map<string, string>

    constructor (inputs: map<string, string>)
      ensures this.inputs == inputs
    {
      this.inputs := inputs;
    }
  }

  /** `params.get(field) || ''` on the page's query string. */
  function QueryValue(query: map<string, string>, field: string): string
  {
    if field in query then query[field] else ""
  }

  /** `pathname.replace(/^\//, '') || 'site'`: at most one leading slash removed. */
  function Origem(pathname: string): (r: string)
    ensures r != ""
    ensures pathname != "" && pathname[0] == '/' && |pathname| > 1 ==> r == pathname[1..]
    ensures pathname != "" && pathname[0] != '/' ==> r == pathname
    ensures pathname == "" || pathname == "/" ==> r == "site"
  {
    var path := if pathname != "" && pathname[0] == '/' then pathname[1..] else pathname;
    if path == "" then "site" else path
  }

  /** One input filled only when it exists and is empty. */
  function Fill(inputs: map<string, string>, field: string, value: string): map<string, string>
  {
    if field in inputs && inputs[field] == "" then inputs[field := value] else inputs
  }

  /** The UTM inputs in `fields` filled from the query string, in order. */
  function FillUtms(inputs: map<string, string>, query: map<string, string>, fields: seq<string>): map<string, string>
  {
    if fields == [] then inputs
    else
      var last := fields[|fields| - 1];
      Fill(FillUtms(inputs, query, fields[..|fields| - 1]), last, QueryValue(query, last))
  }

  /** The form's inputs after `populateUtms`. */
  function Populated(inputs: map<string, string>, query: map<string, string>, pathname: string): (r: map<string, string>)
    ensures r.Keys == inputs.Keys
  {
    FillUtmsFrame(inputs, query, UtmFields);
    Fill(FillUtms(inputs, query, UtmFields), "origem", Origem(pathname))
  }

  /** Filling the UTM fields adds no input and changes only empty inputs named in `fields`. */
  lemma {:induction false} FillUtmsFrame(inputs: map<string, string>, query: map<string, string>, fields: seq<string>)
    ensures FillUtms(inputs, query, fields).Keys == inputs.Keys
    ensures forall k :: k in inputs && (inputs[k] != "" || k !in fields) ==> FillUtms(inputs, query, fields)[k] == inputs[k]
    ensures forall k :: k in inputs && inputs[k] == "" && k in fields ==> FillUtms(inputs, query, fields)[k] == QueryValue(query, k)
  {
    if fields != [] {
      var front := fields[..|fields| - 1];
      var last := fields[|fields| - 1];
      FillUtmsFrame(inputs, query, front);
      assert forall k :: k in fields <==> k in front || k == last;
    }
  }

  /**
   * `populateUtms` touches only empty inputs: an empty UTM input gets the
   * query's value (or ''), an empty `origem` gets the page's path (or
   * 'site'), and every other input keeps its value.
   */
  lemma PopulatedFillsOnlyEmpty(inputs: map<string, string>, query: map<string, string>, pathname: string)
    ensures Populated(inputs, query, pathname).Keys == inputs.Keys
    ensures forall k :: k in inputs && inputs[k] != "" ==> Populated(inputs, query, pathname)[k] == inputs[k]
    ensures forall k :: k in inputs && inputs[k] == "" && k in UtmFields ==> Populated(inputs, query, pathname)[k] == QueryValue(query, k)
    ensures "origem" in inputs && inputs["origem"] == "" ==> Populated(inputs, query, pathname)["origem"] == Origem(pathname)
    ensures forall k :: k in inputs && k !in UtmFields && k != "origem" ==> Populated(inputs, query, pathname)[k] == inputs[k]
  {
    FillUtmsFrame(inputs, query, UtmFields);
    assert "origem" !in UtmFields;
  }

  /** Running the fill again changes nothing; in particular `origem` is never left empty. */
  lemma PopulatedIdempotent(inputs: map<string, string>, query: map<string, string>, pathname: string)
    ensures Populated(Populated(inputs, query, pathname), query, pathname) == Populated(inputs, query, pathname)
  {
    var once := Populated(inputs, query, pathname);
    var twice := Populated(once, query, pathname);
    PopulatedFillsOnlyEmpty(inputs, query, pathname);
    PopulatedFillsOnlyEmpty(once, query, pathname);
    forall k | k in once ensures twice[k] == once[k] {
    }
  }

  /** `populateUtms(form)`: the UTM inputs in order, then `origem`. */
  method PopulateUtms(form: LeadForm, query: map<string, string>, pathname: string)
    modifies form
    ensures form.inputs == Populated(old(form.inputs), query, pathname)
  {
    ghost var inputs0 := form.inputs;
    var i := 0;
    while i < |UtmFields|
      invariant 0 <= i <= |UtmFields|
      invariant form.inputs == FillUtms(inputs0, query, UtmFields[..i])
    {
      var field := UtmFields[i];
      assert UtmFields[..i + 1][..i] == UtmFields[..i];
      if field in form.inputs && form.inputs[field] == "" {
        form.inputs := form.inputs[field := QueryValue(query, field)];
      }
      i := i + 1;
    }
    assert UtmFields[..i] == UtmFields;
    if "origem" in form.inputs && form.inputs["origem"] == "" {
      form.inputs := form.inputs["origem" := Origem(pathname)];
    }
  }

  // ---------------------------------------------------------------------------
  // updateCarouselNav
  // ---------------------------------------------------------------------------

  /** The carousel's scroll geometry and whether it holds any card. */
  class Carousel {
    var hasCards: bool
    var scrollWidth: real
    var clientWidth: real
    var scrollLeft: real

    constructor (hasCards: bool, scrollWidth: real, clientWidth: real, scrollLeft: real)
      ensures this.hasCards == hasCards && this.scrollWidth == scrollWidth
      ensures this.clientWidth == clientWidth && this.scrollLeft == scrollLeft
    {
      this.hasCards := hasCards;
      this.scrollWidth := scrollWidth;
      this.clientWidth := clientWidth;
      this.scrollLeft := scrollLeft;
    }
  }

  /** An arrow button: its `disabled` property and its `is-hidden` class. */
  class NavButton {
    var disabled: bool
    var hidden: bool

    constructor ()
      ensures !disabled && !hidden
    {
      disabled := false;
      hidden := false;
    }
  }

  /** The buttons show only when there are cards and more than 5px to scroll. */
  predicate CanScroll(hasCards: bool, maxScroll: real)
  {
    hasCards && maxScroll > 5.0
  }

  /** Whether "previous" is disabled. */
  predicate PrevDisabled(hasCards: bool, maxScroll: real, scrollLeft: real)
  {
    !CanScroll(hasCards, maxScroll) || scrollLeft <= 5.0
  }

  /** Whether "next" is disabled. */
  predicate NextDisabled(hasCards: bool, maxScroll: real, scrollLeft: real)
  {
    !CanScroll(hasCards, maxScroll) || scrollLeft >= maxScroll - 5.0
  }

  /**
   * `updateCarouselNav()`. Nothing happens when the carousel or a button is
   * missing; the buttons are the two distinct arrows, but should one element
   * be both, the writes to "next" come last and win.
   */
  method UpdateCarouselNav(carousel: Carousel?, prev: NavButton?, next: NavButton?)
    modifies prev, next
    ensures carousel == null || prev == null || next == null ==>
      (prev != null ==> prev.disabled == old(prev.disabled) && prev.hidden == old(prev.hidden))
      && (next != null ==> next.disabled == old(next.disabled) && next.hidden == old(next.hidden))
    ensures carousel != null && prev != null && next != null ==>
      var maxScroll := carousel.scrollWidth - carousel.clientWidth;
      next.hidden == !CanScroll(carousel.hasCards, maxScroll)
      && next.disabled == NextDisabled(carousel.hasCards, maxScroll, carousel.scrollLeft)
      && prev.hidden == !CanScroll(carousel.hasCards, maxScroll)
      && (prev != next ==> prev.disabled == PrevDisabled(carousel.hasCards, maxScroll, carousel.scrollLeft))
  {
    if carousel == null || prev == null || next == null {
      return;
    }
    var maxScroll := carousel.scrollWidth - carousel.clientWidth;
    var canScroll := carousel.hasCards && maxScroll > 5.0;
    if !canScroll {
      prev.disabled := true;
      next.disabled := true;
      prev.hidden := true;
      next.hidden := true;
      return;
    }
    prev.hidden := false;
    next.hidden := false;
    prev.disabled := carousel.scrollLeft <= 5.0;
    next.disabled := carousel.scrollLeft >= maxScroll - 5.0;
  }

  /** With more than 10px to scroll, at least one arrow is always usable. */
  lemma NavNeverStuck(hasCards: bool, maxScroll: real, scrollLeft: real)
    requires hasCards && maxScroll > 10.0
    ensures !(PrevDisabled(hasCards, maxScroll, scrollLeft) && NextDisabled(hasCards, maxScroll, scrollLeft))
  {
  }

  /** Away from both ends by more than 5px, both arrows are usable. */
  lemma NavBothUsableInside(hasCards: bool, maxScroll: real, scrollLeft: real)
    requires hasCards && 5.0 < scrollLeft < maxScroll - 5.0
    ensures CanScroll(hasCards, maxScroll)
    ensures !PrevDisabled(hasCards, maxScroll, scrollLeft) && !NextDisabled(hasCards, maxScroll, scrollLeft)
  {
  }

  /**
   * Between 5px and 10px of scroll the arrows show but can both be
   * disabled: 8px of scroll at position 4 is one such state.
   */
  lemma NavShortScrollBothDisabled()
    ensures CanScroll(true, 8.0)
    ensures PrevDisabled(true, 8.0, 4.0) && NextDisabled(true, 8.0, 4.0)
  {
  }
}
