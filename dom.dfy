/** The part of a loaded page the automation reads and writes, as plain values: the
    `<select>` controls by selector, the texts of the `<button>` elements and the outerHTML
    of the `a.common_btn.regist` links, in document order. The browser driver itself is
    not modelled; a page is what it would report. */
module Dom {
  import opened Common
  import opened Text

  /** An `<option>`: its value attribute and its textContent. */
  datatype SelectOption = SelectOption(value: string, text: string)

  /** A `<select>`: its options in document order and its current value. */
  datatype SelectControl = SelectControl(options: seq<SelectOption>, value: string)

  datatype Page = Page(
    url: string,
    controls: map<string, SelectControl>, // document.querySelector(sel) for the selectors used
    buttons: seq<string>,                 // MustElements("button"), each MustText()
    registLinks: seq<string>)             // MustElements("a.common_btn.regist"), each outerHTML

  /** What forceSelect reports, with the page it leaves behind. */
  datatype Selection = Selection(ok: bool, page: Page)

  const AreaSelector: string := "#areaGbn"
  const AreaWanted: string := "호계스쿼시"
  const CourseSelector: string := "#entranceType"
  const CourseWanted: string := "화목(강습)"
  /** The address prefix of the lesson list page. */
  const ListingUrl: string := "https://www.auc.or.kr/reservation/program/lesson/list"
  /** The three fragments a reservation link must contain to be clicked. */
  const SlotCourse: string := "화목(강습)"
  const SlotTime: string := "20:00 - 21:00"
  const SlotApply: string := "신청"

  /** One selection step of the lesson form: which control, which option, and the reply
      bodies for success and failure. */
  datatype Step = Step(selector: string, want: string, okBody: string, failBody: string)

  /** Code "1": the lesson area. */
  const AreaStep: Step := Step(AreaSelector, AreaWanted, "강습 구분 선택 완료", "강습 구분 선택 실패")
  /** Code "2": the lesson course. */
  const CourseStep: Step := Step(CourseSelector, CourseWanted, "강습 과정 선택 완료", "강습 과정 선택 실패")
  /** The reply bodies of the slot search (code "3"). */
  const SlotOkBody: string := "강습 시간 선택 완료"
  const SlotMissingBody: string := "조건에 맞는 강습 시간 버튼을 찾지 못했습니다."

  /** The index of the first element of `s` satisfying `p` (Array.prototype.find, or a Go
      range loop that breaks at the first hit). */
  function FirstIndex<T>(s: seq<T>, p: T -> bool): (r: Option<nat>)
    ensures r.Some? ==> r.value < |s| && p(s[r.value])
    ensures r.Some? ==> forall j :: 0 <= j < r.value ==> !p(s[j])
    ensures r.None? <==> forall i :: 0 <= i < |s| ==> !p(s[i])
  {
    if s == [] then None
    else if p(s[0]) then Some(0)
    else
      match FirstIndex(s[1..], p)
      case None => None
      case Some(k) => Some(k + 1)
  }

  /** Some option's value attribute is exactly `want` (`option[value="…"]`). */
  predicate HasValue(options: seq<SelectOption>, want: string) {
    exists i :: 0 <= i < |options| && options[i].value == want
  }

  /** Some option's trimmed text equals the trimmed `want`. */
  predicate HasLabel(options: seq<SelectOption>, want: string) {
    exists i :: 0 <= i < |options| && JsTrim(options[i].text) == JsTrim(want)
  }

  /** The option forceSelect settles on: the first whose value is `want`, else the first
      whose trimmed text is the trimmed `want`. Its properties are ChoiceMeetsSelector's. */
  function ChooseOption(options: seq<SelectOption>, want: string): (r: Option<nat>)
    ensures r.Some? ==> r.value < |options|
  {
    var byValue := FirstIndex(options, (o: SelectOption) => o.value == want);
    if byValue.Some? then byValue
    else FirstIndex(options, (o: SelectOption) => JsTrim(o.text) == JsTrim(want))
  }

  /** The choice follows the two selectors in order: some option is chosen exactly when
      one matches by value or by label; a value match always wins; otherwise the first
      label match is chosen. */
  lemma ChoiceMeetsSelector(options: seq<SelectOption>, want: string)
    ensures var r := ChooseOption(options, want);
      && (r.Some? <==> HasValue(options, want) || HasLabel(options, want))
      && (HasValue(options, want) ==> r.Some? && options[r.value].value == want)
      && (!HasValue(options, want) && r.Some? ==>
            && JsTrim(options[r.value].text) == JsTrim(want)
            && forall j :: 0 <= j < r.value ==> JsTrim(options[j].text) != JsTrim(want))
  {
    var byValue := FirstIndex(options, (o: SelectOption) => o.value == want);
    var byLabel := FirstIndex(options, (o: SelectOption) => JsTrim(o.text) == JsTrim(want));
    if HasValue(options, want) {
      var i :| 0 <= i < |options| && options[i].value == want;
      assert byValue.Some?;
    }
    if HasLabel(options, want) {
      var i :| 0 <= i < |options| && JsTrim(options[i].text) == JsTrim(want);
      assert byLabel.Some?;
    }
  }

  /** forceSelect(page, sel, want): an absent control or no matching option reports false and
      leaves the page alone; otherwise the control takes the chosen option's value and
      nothing else on the page changes. ForceSelectMeetsSelector states which value. */
  function ForceSelect(p: Page, sel: string, want: string): (r: Selection)
    ensures !r.ok ==> r.page == p
    ensures r.page.url == p.url && r.page.buttons == p.buttons && r.page.registLinks == p.registLinks
  {
    if sel !in p.controls then Selection(false, p)
    else
      var c := p.controls[sel];
      match ChooseOption(c.options, want)
      case None => Selection(false, p)
      case Some(i) => Selection(true, p.(controls := p.controls[sel := c.(value := c.options[i].value)]))
  }

  /** What forceSelect does to the page: it succeeds exactly when the control exists and
      has a value or label match; only that control's value changes; a value match sets
      it to `want`, and otherwise it takes the value of the first label match. */
  lemma ForceSelectMeetsSelector(p: Page, sel: string, want: string)
    ensures var r := ForceSelect(p, sel, want);
      && (r.ok <==> sel in p.controls && (HasValue(p.controls[sel].options, want) || HasLabel(p.controls[sel].options, want)))
      && r.page.controls.Keys == p.controls.Keys
      && (forall k :: k in p.controls && k != sel ==> r.page.controls[k] == p.controls[k])
      && (sel in p.controls ==> r.page.controls[sel].options == p.controls[sel].options)
      && (r.ok && HasValue(p.controls[sel].options, want) ==> r.page.controls[sel].value == want)
      && (r.ok && !HasValue(p.controls[sel].options, want) ==>
            exists i :: 0 <= i < |p.controls[sel].options|
              && JsTrim(p.controls[sel].options[i].text) == JsTrim(want)
              && r.page.controls[sel].value == p.controls[sel].options[i].value
              && forall j :: 0 <= j < i ==> JsTrim(p.controls[sel].options[j].text) != JsTrim(want))
  {
    if sel in p.controls {
      ChoiceMeetsSelector(p.controls[sel].options, want);
    }
  }

  /** Selecting the same thing twice is selecting it once. */
  lemma ForceSelectIdempotent(p: Page, sel: string, want: string)
    ensures var once := ForceSelect(p, sel, want);
      ForceSelect(once.page, sel, want) == once
  {
    var once := ForceSelect(p, sel, want);
    if once.ok {
      var c := p.controls[sel];
      var c1 := once.page.controls[sel];
      assert c1 == c.(value := c1.value);
      assert once.page.controls[sel := c1] == once.page.controls;
    }
  }

  /** A value match wins over a label match, even one on an earlier option: whenever
      some option's value is `want`, forceSelect succeeds and sets the control to `want`. */
  lemma ValueBeatsLabel(p: Page, sel: string, want: string, i: nat, j: nat)
    requires sel in p.controls && j < i < |p.controls[sel].options|
    requires p.controls[sel].options[i].value == want
    requires JsTrim(p.controls[sel].options[j].text) == JsTrim(want)
    ensures var r := ForceSelect(p, sel, want); r.ok && r.page.controls[sel].value == want
  {
    ChoiceMeetsSelector(p.controls[sel].options, want);
    assert HasValue(p.controls[sel].options, want);
  }

  /** The reservation link the automation looks for. */
  predicate IsSlotLink(html: string) {
    Contains(html, SlotCourse) && Contains(html, SlotTime) && Contains(html, SlotApply)
  }

  /** The button loop: walk the elements in document order and stop at the first that
      qualifies. At most one element is chosen, and it is the first that qualifies. */
  method ClickFirst<T>(items: seq<T>, qualifies: T -> bool) returns (clicked: Option<nat>)
    ensures clicked == FirstIndex(items, qualifies)
  {
    for i := 0 to |items|
      invariant forall j :: 0 <= j < i ==> !qualifies(items[j])
    {
      if qualifies(items[i]) {
        return Some(i);
      }
    }
    return None;
  }
}
