/**
  The field logic of the user-profile form renderer
  (src/login/UserProfileFormFields.tsx): how a field's value changes when a
  text input, a remove/add button or a checkbox is used, which widget and
  HTML input type an attribute gets, where a select's options and their
  labels come from, and where a group header is inserted.
 */
module UserProfileFormFields {
  import opened Js
  import opened I18n

  /** A field's current value: one string, or a list for a multi-valued attribute. */
  datatype ValueOrValues = Single(value: string) | Multi(values: seq<string>)

  datatype Group = Group(name: string, displayHeader: Option<string>, displayDescription: Option<string>)

  /** A validator entry of an attribute; only its `options` are read here. */
  datatype Validator = Validator(options: Option<seq<string>>)

  datatype Annotations = Annotations(
    inputType: Option<string>,
    inputOptionsFromValidation: Option<string>,
    inputOptionLabels: Option<map<string, string>>,
    inputOptionLabelsI18nPrefix: Option<string>)

  datatype Attribute = Attribute(
    name: string,
    group: Option<Group>,
    annotations: Annotations,
    validators: map<string, Validator>)

  // ---------------------------------------------------------------------
  // Editing a value (InputTag, AddRemoveButtonsMultiValuedAttribute)
  // ---------------------------------------------------------------------

  /** `values.map((value, i) => i === fieldIndex ? typed : value)` */
  function UpdatedValues(values: seq<string>, fieldIndex: nat, typed: string): seq<string> {
    seq(|values|, i requires 0 <= i < |values| => if i == fieldIndex then typed else values[i])
  }

  /**
    The value InputTag dispatches when its text changes. A field with an
    index belongs to a multi-valued attribute (the component asserts the
    value is a list); one without an index takes the typed text.
   */
  function OnInputChange(valueOrValues: ValueOrValues, fieldIndex: Option<nat>, typed: string): (r: ValueOrValues)
    requires fieldIndex.Some? ==> valueOrValues.Multi?
    ensures fieldIndex.None? ==> r == Single(typed)
    ensures fieldIndex.Some? && fieldIndex.value < |valueOrValues.values| ==>
      r == Multi(valueOrValues.values[fieldIndex.value := typed])
    ensures fieldIndex.Some? && fieldIndex.value >= |valueOrValues.values| ==> r == valueOrValues
  {
    match fieldIndex
    case None => Single(typed)
    case Some(i) =>
      var r := UpdatedValues(valueOrValues.values, i, typed);
      assert i >= |valueOrValues.values| ==> r == valueOrValues.values;
      assert i < |valueOrValues.values| ==> r == valueOrValues.values[i := typed];
      Multi(r)
  }

  /** `values.filter((_, i) => i !== fieldIndex)`, the list the remove button dispatches. */
  function RemovedValues(values: seq<string>, fieldIndex: nat): (r: seq<string>)
    ensures fieldIndex < |values| ==> r == values[..fieldIndex] + values[fieldIndex + 1..]
    ensures fieldIndex >= |values| ==> r == values
    decreases |values|
  {
    if |values| == 0 then []
    else
      var last := |values| - 1;
      var kept := RemovedValues(values[..last], fieldIndex);
      assert fieldIndex < last ==>
        values[..last][..fieldIndex] == values[..fieldIndex]
        && values[..last][fieldIndex + 1..] + [values[last]] == values[fieldIndex + 1..];
      assert values[..last] + [values[last]] == values;
      kept + (if last == fieldIndex then [] else [values[last]])
  }

  /** `[...values, ""]`, the list the add button dispatches. */
  function AddedValues(values: seq<string>): (r: seq<string>)
    ensures |r| == |values| + 1 && r[..|values|] == values && r[|values|] == ""
  {
    values + [""]
  }

  /** Removing the entry the add button created gives back the list before it. */
  lemma AddThenRemoveRestores(values: seq<string>)
    ensures RemovedValues(AddedValues(values), |values|) == values
  {
  }

  // ---------------------------------------------------------------------
  // Multiselect checkboxes (InputTagSelects)
  // ---------------------------------------------------------------------

  /** `values.indexOf(option)`: the first position holding `option`, or -1. */
  function IndexOf(values: seq<string>, option: string): (k: int)
    ensures -1 <= k < |values|
    ensures k == -1 <==> option !in values
    ensures k >= 0 ==> values[k] == option && option !in values[..k]
    decreases |values|
  {
    if |values| == 0 then -1
    else if values[0] == option then 0
    else
      var k := IndexOf(values[1..], option);
      assert values == [values[0]] + values[1..];
      if k == -1 then -1 else k + 1
  }

  /**
    The array `values.splice(start, 1)` leaves behind. A negative start
    counts back from the end, so -1 names the last entry; a start past the
    end removes nothing.
   */
  function SpliceOne(values: seq<string>, start: int): (r: seq<string>)
    ensures 0 <= start < |values| ==> r == values[..start] + values[start + 1..]
    ensures start == -1 && values != [] ==> r == values[..|values| - 1]
    ensures |r| == if values == [] || start >= |values| then |values| else |values| - 1
  {
    var n := |values|;
    var from := if start < 0 then (if n + start < 0 then 0 else n + start) else (if start > n then n else start);
    if from == n then values else values[..from] + values[from + 1..]
  }

  /** Removing position `k` takes exactly one copy of the entry there out of the multiset. */
  lemma RemoveAtMultiset(values: seq<string>, k: nat)
    requires k < |values|
    ensures multiset(values[..k] + values[k + 1..]) == multiset(values) - multiset{values[k]}
  {
    assert values == values[..k] + [values[k]] + values[k + 1..];
  }

  /** Only one position is a first occurrence of a value. */
  lemma FirstOccurrenceUnique(values: seq<string>, option: string, a: nat, b: nat)
    requires a < |values| && values[a] == option && option !in values[..a]
    requires b < |values| && values[b] == option && option !in values[..b]
    ensures a == b
  {
  }

  /** Unticking a selected option removes its first occurrence and nothing else. */
  lemma UncheckSelected(values: seq<string>, option: string)
    requires option in values
    ensures 0 <= IndexOf(values, option)
    ensures SpliceOne(values, IndexOf(values, option))
      == values[..IndexOf(values, option)] + values[IndexOf(values, option) + 1..]
    ensures multiset(SpliceOne(values, IndexOf(values, option))) == multiset(values) - multiset{option}
  {
    RemoveAtMultiset(values, IndexOf(values, option));
  }

  /** Unticking an option that is not selected drops the last entry (`splice(-1, 1)`). */
  lemma UncheckUnselected(values: seq<string>, option: string)
    requires option !in values
    ensures SpliceOne(values, IndexOf(values, option)) == if values == [] then [] else values[..|values| - 1]
    ensures option !in SpliceOne(values, IndexOf(values, option))
  {
    if values != [] {
      var init := values[..|values| - 1];
      assert forall j :: 0 <= j < |init| ==> init[j] == values[j];
    }
  }

  /** Whether the checkbox for `option` is ticked. */
  predicate IsChecked(valueOrValues: ValueOrValues, option: string) {
    match valueOrValues
    case Multi(values) => option in values
    case Single(value) => value == option
  }

  /**
    The value a multiselect checkbox dispatches when it changes: on a list
    value, a copy with the option pushed at the end (ticked) or with
    `splice(indexOf(option), 1)` applied (unticked); on a single value, the
    option or the empty string.
   */
  method OnCheckboxChange(valueOrValues: ValueOrValues, option: string, isChecked: bool) returns (next: ValueOrValues)
    ensures next.Multi? == valueOrValues.Multi?
    ensures valueOrValues.Single? ==> next == Single(if isChecked then option else "")
    ensures valueOrValues.Multi? && isChecked ==> next.values == valueOrValues.values + [option]
    ensures valueOrValues.Multi? && !isChecked && option in valueOrValues.values ==>
      next.values == valueOrValues.values[..IndexOf(valueOrValues.values, option)]
        + valueOrValues.values[IndexOf(valueOrValues.values, option) + 1..]
      && multiset(next.values) == multiset(valueOrValues.values) - multiset{option}
    ensures valueOrValues.Multi? && !isChecked && option !in valueOrValues.values ==>
      next.values == if valueOrValues.values == [] then [] else valueOrValues.values[..|valueOrValues.values| - 1]
    ensures isChecked ==> IsChecked(next, option)
    ensures !isChecked && (if valueOrValues.Multi? then multiset(valueOrValues.values)[option] <= 1 else option != "") ==>
      !IsChecked(next, option)
  {
    if valueOrValues.Multi? {
      var newValues := valueOrValues.values;
      if isChecked {
        newValues := newValues + [option];
      } else {
        if option in newValues {
          UncheckSelected(newValues, option);
        } else {
          UncheckUnselected(newValues, option);
        }
        newValues := SpliceOne(newValues, IndexOf(newValues, option));
      }
      next := Multi(newValues);
    } else {
      next := Single(if isChecked then option else "");
    }
  }

  /** Ticking an option that was not selected and then unticking it gives back the list. */
  lemma CheckThenUncheckRestores(values: seq<string>, option: string)
    requires option !in values
    ensures SpliceOne(values + [option], IndexOf(values + [option], option)) == values
  {
    var ext := values + [option];
    assert ext[|values|] == option;
    assert ext[..|values|] == values;
    FirstOccurrenceUnique(ext, option, IndexOf(ext, option), |values|);
  }

  /** Appending the option again does not move its first occurrence. */
  lemma IndexOfAfterAppend(values: seq<string>, option: string)
    requires option in values
    ensures IndexOf(values + [option], option) == IndexOf(values, option)
  {
    var ext := values + [option];
    var j := IndexOf(values, option);
    assert ext[j] == option;
    assert ext[..j] == values[..j];
    FirstOccurrenceUnique(ext, option, IndexOf(ext, option), j);
  }

  /** Removing an entry before the appended one keeps the appended one last. */
  lemma SpliceBeforeAppended(values: seq<string>, x: string, j: nat)
    requires j < |values|
    ensures SpliceOne(values + [x], j) == values[..j] + values[j + 1..] + [x]
  {
    var ext := values + [x];
    assert ext[..j] == values[..j];
    assert ext[j + 1..] == values[j + 1..] + [x];
  }

  /** Removing an earlier copy of the appended entry keeps the same entries. */
  lemma RemoveCopyBeforeAppended(values: seq<string>, x: string, j: nat, k: int)
    requires j < |values| && values[j] == x && k == j
    ensures SpliceOne(values + [x], k) == values[..j] + values[j + 1..] + [x]
    ensures multiset(SpliceOne(values + [x], k)) == multiset(values)
  {
    SpliceBeforeAppended(values, x, j);
    var rest := values[..j] + values[j + 1..];
    assert values == values[..j] + [x] + values[j + 1..];
    assert multiset(rest + [x]) == multiset(values[..j]) + multiset{x} + multiset(values[j + 1..]);
  }

  /**
    Ticking and then unticking keeps the same entries; when the option was
    already selected, the earlier occurrence is the one removed, so the
    ticked option moves to the end.
   */
  lemma CheckThenUncheckMovesSelected(values: seq<string>, option: string)
    requires option in values
    ensures SpliceOne(values + [option], IndexOf(values + [option], option))
      == values[..IndexOf(values, option)] + values[IndexOf(values, option) + 1..] + [option]
    ensures multiset(SpliceOne(values + [option], IndexOf(values + [option], option))) == multiset(values)
  {
    IndexOfAfterAppend(values, option);
    RemoveCopyBeforeAppended(values, option, IndexOf(values, option), IndexOf(values + [option], option));
  }

  // ---------------------------------------------------------------------
  // Input type, options and option labels
  // ---------------------------------------------------------------------

  /** The `type` of an InputTag: `html5-X` gives `X`, no annotation gives "text". */
  function InputType(inputType: Option<string>): (r: string)
    ensures inputType.None? ==> r == "text"
    ensures inputType.Some? && StartsWith(inputType.value, "html5-") ==> "html5-" + r == inputType.value
    ensures inputType.Some? && !StartsWith(inputType.value, "html5-") ==> r == inputType.value
  {
    match inputType
    case Some(t) =>
      if StartsWith(t, "html5-") then
        assert t == t[..6] + t[6..];
        t[6..]
      else t
    case None => "text"
  }

  /** The prefix is stripped exactly once: `html5-X` always gives back `X`. */
  lemma InputTypeStripsPrefix(x: string)
    ensures InputType(Some("html5-" + x)) == x
  {
    assert StartsWith("html5-" + x, "html5-");
  }

  /** The validator named by `inputOptionsFromValidation` exists and carries an option list. */
  predicate NamedListGiven(attribute: Attribute) {
    match attribute.annotations.inputOptionsFromValidation
    case Some(name) => name in attribute.validators && attribute.validators[name].options.Some?
    case None => false
  }

  /** `attribute.validators.options?.options ?? []` */
  function FallbackOptions(attribute: Attribute): seq<string> {
    if "options" in attribute.validators then attribute.validators["options"].options.GetOr([]) else []
  }

  /**
    The options of a select, radio group or checkbox group: those of the
    validator named by `inputOptionsFromValidation` when that validator
    exists and has options, else those of the `options` validator, else
    none. Both select widgets resolve their options by this rule.
   */
  function SelectOptions(attribute: Attribute): (r: seq<string>)
    ensures r == [] || exists k :: k in attribute.validators && attribute.validators[k].options == Some(r)
    ensures NamedListGiven(attribute) ==>
      r == attribute.validators[attribute.annotations.inputOptionsFromValidation.value].options.value
    ensures !NamedListGiven(attribute) ==> r == FallbackOptions(attribute)
  {
    var fromValidation :=
      match attribute.annotations.inputOptionsFromValidation
      case Some(name) => if name in attribute.validators then attribute.validators[name].options else None
      case None => None;
    if fromValidation.Some? then fromValidation.value
    else if "options" in attribute.validators && attribute.validators["options"].options.Some? then
      attribute.validators["options"].options.value
    else []
  }

  /**
    An attribute without `inputOptionsFromValidation` takes the fallback;
    a named validator with an empty list still wins and hides the fallback.
   */
  lemma SelectOptionsPrecedence(attribute: Attribute)
    ensures attribute.annotations.inputOptionsFromValidation.None? ==> SelectOptions(attribute) == FallbackOptions(attribute)
    ensures (NamedListGiven(attribute)
             && attribute.validators[attribute.annotations.inputOptionsFromValidation.value].options == Some([])) ==>
      SelectOptions(attribute) == []
  {
  }

  /**
    The label of one option: a translation of `inputOptionLabels[option]`
    (or of the option itself when the map lacks it) when the label map is
    given, else a translation of `<prefix>.<option>` when an i18n prefix is
    given, else the option verbatim.
   */
  function InputLabel(attribute: Attribute, option: string): (r: Text)
    ensures r.Literal? <==> attribute.annotations.inputOptionLabels.None? && attribute.annotations.inputOptionLabelsI18nPrefix.None?
    ensures r.Literal? ==> r.text == option
    ensures !r.Literal? ==> r.Advanced?
    ensures attribute.annotations.inputOptionLabels.Some? ==>
      r.key == (var labels := attribute.annotations.inputOptionLabels.value; if option in labels then labels[option] else option)
    ensures attribute.annotations.inputOptionLabels.None? && attribute.annotations.inputOptionLabelsI18nPrefix.Some? ==>
      r.key == attribute.annotations.inputOptionLabelsI18nPrefix.value + "." + option
  {
    match attribute.annotations.inputOptionLabels
    case Some(labels) => Advanced(if option in labels then labels[option] else option)
    case None =>
      match attribute.annotations.inputOptionLabelsI18nPrefix
      case Some(prefix) => Advanced(prefix + "." + option)
      case None => Literal(option)
  }

  // ---------------------------------------------------------------------
  // Widget choice and the hidden-field rule (InputFieldByType, the form group)
  // ---------------------------------------------------------------------

  datatype Widget =
    | HiddenInput
    | TextareaTag
    | SelectTag(multiple: bool)
    | InputTagSelects(radio: bool)
    | InputTags(count: nat)        // one InputTag per entry, entry i with fieldIndex i
    | PasswordInputTag
    | InputTag

  function InputFieldByType(attribute: Attribute, valueOrValues: ValueOrValues): Widget {
    match attribute.annotations.inputType
    case Some("hidden") => HiddenInput
    case Some("textarea") => TextareaTag
    case Some("select") => SelectTag(false)
    case Some("multiselect") => SelectTag(true)
    case Some("select-radiobuttons") => InputTagSelects(true)
    case Some("multiselect-checkboxes") => InputTagSelects(false)
    case _ =>
      if valueOrValues.Multi? then InputTags(|valueOrValues.values|)
      else if attribute.name == "password" || attribute.name == "password-confirm" then PasswordInputTag
      else InputTag
  }

  /** The form group is hidden for a hidden input, and for the password confirmation when it is not asked for. */
  predicate IsFormGroupHidden(attribute: Attribute, doMakeUserConfirmPassword: bool) {
    attribute.annotations.inputType == Some("hidden")
    || (attribute.name == "password-confirm" && !doMakeUserConfirmPassword)
  }

  /** A hidden attribute is both a hidden input and in a hidden form group. */
  lemma HiddenAttributeRendering(attribute: Attribute, valueOrValues: ValueOrValues, doMakeUserConfirmPassword: bool)
    requires attribute.annotations.inputType == Some("hidden")
    ensures InputFieldByType(attribute, valueOrValues) == HiddenInput
    ensures IsFormGroupHidden(attribute, doMakeUserConfirmPassword)
  {
  }

  /**
    Without a special input type, a list value gets one InputTag per entry
    (even for a password attribute, since the list test comes first), and a
    single value a password input exactly for the two password attributes.
   */
  lemma PlainInputDispatch(attribute: Attribute, valueOrValues: ValueOrValues)
    requires attribute.annotations.inputType !in
      {Some("hidden"), Some("textarea"), Some("select"), Some("multiselect"), Some("select-radiobuttons"), Some("multiselect-checkboxes")}
    ensures valueOrValues.Multi? ==> InputFieldByType(attribute, valueOrValues) == InputTags(|valueOrValues.values|)
    ensures valueOrValues.Single? ==>
      (InputFieldByType(attribute, valueOrValues) == PasswordInputTag <==> attribute.name in {"password", "password-confirm"})
  {
  }

  /** With confirmation asked for, only a hidden input type hides a form group. */
  lemma ConfirmationShownWhenAsked(attribute: Attribute)
    ensures IsFormGroupHidden(attribute, true) <==> attribute.annotations.inputType == Some("hidden")
    ensures attribute.name == "password-confirm" ==> IsFormGroupHidden(attribute, false)
  {
  }

  // ---------------------------------------------------------------------
  // Group headers (GroupLabel and the shared groupNameRef cell)
  // ---------------------------------------------------------------------

  datatype GroupHeader = GroupHeader(name: string, headerText: Text, description: Option<Text>)

  /** `attribute.group?.name ?? ""` */
  function GroupNameOf(attribute: Attribute): string {
    if attribute.group.Some? then attribute.group.value.name else ""
  }

  /** The header GroupLabel renders for a group: its display header when non-empty, else its name. */
  function HeaderOf(group: Group): GroupHeader {
    GroupHeader(
      group.name,
      if group.displayHeader.GetOr("") != "" then Advanced(group.displayHeader.value) else Literal(group.name),
      if group.displayDescription.GetOr("") != "" then Some(Advanced(group.displayDescription.value)) else None)
  }

  /** The `{ current }` object shared by all GroupLabel calls of one render. */
  class GroupNameRef {
    var current: string

    constructor ()
      ensures current == ""
    {
      current := "";
    }
  }

  /**
    GroupLabel: when the attribute's group name differs from the cell, the
    cell takes the name (`""` when there is no group), and a header is
    rendered when that name is non-empty.
   */
  method GroupLabel(attribute: Attribute, groupNameRef: GroupNameRef) returns (header: Option<GroupHeader>)
    modifies groupNameRef
    ensures groupNameRef.current == GroupNameOf(attribute)
    ensures header.Some? <==> GroupNameOf(attribute) != old(groupNameRef.current) && GroupNameOf(attribute) != ""
    ensures header.Some? ==> attribute.group.Some? && header.value == HeaderOf(attribute.group.value)
  {
    header := None;
    // `attribute.group?.name`: undefined differs from every string.
    var groupName := if attribute.group.Some? then Some(attribute.group.value.name) else None;
    if groupName != Some(groupNameRef.current) {
      groupNameRef.current := groupName.GetOr("");
      if groupNameRef.current != "" {
        header := Some(HeaderOf(attribute.group.value));
      }
    }
  }

  /** The group name in the cell when attribute `i` is reached: that of attribute `i - 1`, or `""` first. */
  function PreviousGroupName(attributes: seq<Attribute>, i: nat): string
    requires i <= |attributes|
  {
    if i == 0 then "" else GroupNameOf(attributes[i - 1])
  }

  /** The header rendered before attribute `i`, if any. */
  function HeaderAt(attributes: seq<Attribute>, i: nat): Option<GroupHeader>
    requires i < |attributes|
  {
    var name := GroupNameOf(attributes[i]);
    if name != PreviousGroupName(attributes, i) && name != "" then Some(HeaderOf(attributes[i].group.value)) else None
  }

  /** The headers of one render: the `formFieldStates.map` loop calling GroupLabel with one shared cell. */
  method RenderGroupLabels(attributes: seq<Attribute>) returns (headers: seq<Option<GroupHeader>>)
    ensures |headers| == |attributes|
    ensures forall i :: 0 <= i < |attributes| ==> headers[i] == HeaderAt(attributes, i)
  {
    var groupNameRef := new GroupNameRef();
    headers := [];
    var i := 0;
    while i < |attributes|
      invariant 0 <= i <= |attributes|
      invariant |headers| == i
      invariant groupNameRef.current == PreviousGroupName(attributes, i)
      invariant forall j :: 0 <= j < i ==> headers[j] == HeaderAt(attributes, j)
    {
      var header := GroupLabel(attributes[i], groupNameRef);
      headers := headers + [header];
      i := i + 1;
    }
  }

  // The reference description of where headers go: the group names with
  // adjacent repeats collapsed and the ungrouped ("") ones dropped.

  /** The group names of the first `n` attributes, in order. */
  function GroupNamesUpTo(attributes: seq<Attribute>, n: nat): (names: seq<string>)
    requires n <= |attributes|
    ensures |names| == n
    ensures n > 0 ==> names[n - 1] == GroupNameOf(attributes[n - 1])
    decreases n
  {
    if n == 0 then [] else GroupNamesUpTo(attributes, n - 1) + [GroupNameOf(attributes[n - 1])]
  }

  /** One entry per maximal run of equal adjacent names. */
  function CollapseRuns(names: seq<string>): seq<string>
    decreases |names|
  {
    if |names| <= 1 then names
    else
      var init := names[..|names| - 1];
      if names[|names| - 1] == init[|init| - 1] then CollapseRuns(init) else CollapseRuns(init) + [names[|names| - 1]]
  }

  function DropEmpty(names: seq<string>): seq<string>
    decreases |names|
  {
    if names == [] then []
    else DropEmpty(names[..|names| - 1]) + (if names[|names| - 1] == "" then [] else [names[|names| - 1]])
  }

  /** The names of the headers rendered before attributes 0 .. n-1, in order. */
  function HeaderNamesUpTo(attributes: seq<Attribute>, n: nat): seq<string>
    requires n <= |attributes|
    decreases n
  {
    if n == 0 then []
    else
      var h := HeaderAt(attributes, n - 1);
      HeaderNamesUpTo(attributes, n - 1) + (if h.Some? then [h.value.name] else [])
  }

  lemma CollapseStep(init: seq<string>, x: string)
    requires init != []
    ensures CollapseRuns(init + [x]) == if x == init[|init| - 1] then CollapseRuns(init) else CollapseRuns(init) + [x]
  {
    var names := init + [x];
    assert |names| > 1;
    assert names[..|names| - 1] == init;
    assert names[|names| - 1] == x;
  }

  lemma DropEmptyStep(names: seq<string>, x: string)
    ensures DropEmpty(names + [x]) == DropEmpty(names) + (if x == "" then [] else [x])
  {
    assert (names + [x])[..|names|] == names;
  }

  /** A name repeating the one before it continues a run and adds nothing. */
  lemma SameRun(init: seq<string>, x: string)
    requires init != [] && x == init[|init| - 1]
    ensures DropEmpty(CollapseRuns(init + [x])) == DropEmpty(CollapseRuns(init))
  {
    CollapseStep(init, x);
  }

  /** A name differing from the one before it starts a run, which shows unless the name is empty. */
  lemma NewRun(init: seq<string>, x: string)
    requires init == [] || x != init[|init| - 1]
    ensures DropEmpty(CollapseRuns(init + [x])) == DropEmpty(CollapseRuns(init)) + (if x == "" then [] else [x])
  {
    if init == [] {
      assert init + [x] == [x];
      DropEmptyStep([], x);
    } else {
      CollapseStep(init, x);
      DropEmptyStep(CollapseRuns(init), x);
    }
  }

  /** The name a header before attribute `n - 1` contributes: its group name when that starts a new non-empty run. */
  function RunStart(attributes: seq<Attribute>, n: nat): seq<string>
    requires 0 < n <= |attributes|
  {
    var x := GroupNameOf(attributes[n - 1]);
    if x != PreviousGroupName(attributes, n - 1) && x != "" then [x] else []
  }

  lemma HeaderNamesStep(attributes: seq<Attribute>, n: nat)
    requires 0 < n <= |attributes|
    ensures HeaderNamesUpTo(attributes, n) == HeaderNamesUpTo(attributes, n - 1) + RunStart(attributes, n)
  {
  }

  lemma RunsStep(attributes: seq<Attribute>, n: nat)
    requires 0 < n <= |attributes|
    ensures DropEmpty(CollapseRuns(GroupNamesUpTo(attributes, n)))
      == DropEmpty(CollapseRuns(GroupNamesUpTo(attributes, n - 1))) + RunStart(attributes, n)
  {
    var init := GroupNamesUpTo(attributes, n - 1);
    var x := GroupNameOf(attributes[n - 1]);
    assert n > 1 ==> init[|init| - 1] == PreviousGroupName(attributes, n - 1);
    if n > 1 && x == PreviousGroupName(attributes, n - 1) {
      SameRun(init, x);
    } else {
      NewRun(init, x);
    }
  }

  /** The headers before attributes 0 .. n-1 are the non-empty runs of their group names. */
  predicate HeadersMatchRuns(attributes: seq<Attribute>, n: nat)
    requires n <= |attributes|
  {
    HeaderNamesUpTo(attributes, n) == DropEmpty(CollapseRuns(GroupNamesUpTo(attributes, n)))
  }

  lemma NoAttributesNoHeaders(attributes: seq<Attribute>)
    ensures HeadersMatchRuns(attributes, 0)
  {
    assert GroupNamesUpTo(attributes, 0) == [];
  }

  lemma HeadersFollowRunsStep(attributes: seq<Attribute>, n: nat)
    requires 0 < n <= |attributes|
    requires HeadersMatchRuns(attributes, n - 1)
    ensures HeadersMatchRuns(attributes, n)
  {
    HeaderNamesStep(attributes, n);
    RunsStep(attributes, n);
  }

  /** There is one header per maximal run of equal non-empty group names, in order. */
  lemma {:induction false} HeadersFollowRuns(attributes: seq<Attribute>, n: nat)
    requires n <= |attributes|
    ensures HeadersMatchRuns(attributes, n)
    decreases n
  {
    if n == 0 {
      NoAttributesNoHeaders(attributes);
    } else {
      HeadersFollowRuns(attributes, n - 1);
      HeadersFollowRunsStep(attributes, n);
    }
  }
}
