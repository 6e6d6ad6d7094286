/** The option picker (src/components/OptionSelect.tsx): which option is
    selected, which options the search shows, and what the picker reports
    back when an option is chosen or the choice is cleared. */
module OptionSelect {
  import opened Text
  import opened Seqs

  /** One choice: its label (the text shown) and the value reported. */
  datatype Item = Item(labelText: string, value: string)

  /** `strip`: lower case. Removing diacritics after NFD decomposition is
      not part of this model. */
  function Strip(s: string): (r: string)
    ensures |r| == |s|
  {
    Lower(s)
  }

  /** `current`: the first option whose value is the selected value. */
  function Current(options: seq<Item>, value: Option<string>): (r: Option<Item>)
    ensures r.Some? <==> exists i :: 0 <= i < |options| && Some(options[i].value) == value
    ensures r.Some? ==> exists i :: (0 <= i < |options| && options[i] == r.value && Some(r.value.value) == value
      && forall j :: 0 <= j < i ==> Some(options[j].value) != value)
  {
    if options == [] then None
    else if Some(options[0].value) == value then Some(options[0])
    else
      var r := Current(options[1..], value);
      assert forall i :: 1 <= i < |options| ==> options[i] == options[1..][i - 1];
      if r.Some? then
        var k :| 0 <= k < |options[1..]| && options[1..][k] == r.value && Some(r.value.value) == value
          && forall j :: 0 <= j < k ==> Some(options[1..][j].value) != value;
        assert options[k + 1] == r.value;
        r
      else r
  }

  /** The picker's button text: the selected option's label, else the
      placeholder. */
  function ButtonText(options: seq<Item>, value: Option<string>, placeholder: string): (r: string)
    ensures Current(options, value).None? ==> r == placeholder
    ensures Current(options, value).Some? ==> r == Current(options, value).value.labelText
  {
    var c := Current(options, value);
    if c.Some? then c.value.labelText else placeholder
  }

  /** Whether an option's stripped label holds the stripped query. */
  predicate Matches(query: string, o: Item)
  {
    Contains(Strip(o.labelText), Strip(query))
  }

  /** `filtered`: every option while searching is off or the query is
      blank, else the options whose label holds the query, in order. */
  function Filtered(options: seq<Item>, query: string, searchable: bool): (r: seq<Item>)
    ensures !searchable || Trim(query) == "" ==> r == options
    ensures |r| <= |options|
  {
    if !searchable || Trim(query) == "" then options
    else Filter(options, o => Matches(query, o))
  }

  /** The search shows exactly the matching options, and a longer list
      shows the same options of its first part first. */
  lemma FilteredProperties(options: seq<Item>, more: seq<Item>, query: string, searchable: bool)
    ensures forall o :: o in Filtered(options, query, searchable) <==>
      o in options && (!searchable || Trim(query) == "" || Matches(query, o))
    ensures Filtered(options + more, query, searchable)
      == Filtered(options, query, searchable) + Filtered(more, query, searchable)
  {
    if searchable && Trim(query) != "" {
      FilterMembers(options, o => Matches(query, o));
      FilterConcat(options, more, o => Matches(query, o));
    }
  }

  /** Every option matches a query made of its own label, and the search
      shows it. */
  lemma OwnLabelShown(options: seq<Item>, o: Item)
    requires o in options
    ensures o in Filtered(options, o.labelText, true)
  {
    assert StartsWith(Strip(o.labelText), Strip(o.labelText));
    FilteredProperties(options, [], o.labelText, true);
  }

  /** Choosing an option and reading the selection back finds an option
      with the same value; it is the chosen one when values are distinct. */
  lemma ChosenIsCurrent(options: seq<Item>, o: Item)
    requires o in options
    ensures Current(options, Some(o.value)).Some?
    ensures Current(options, Some(o.value)).value.value == o.value
    ensures (forall i, j :: 0 <= i < j < |options| ==> options[i].value != options[j].value) ==>
      Current(options, Some(o.value)) == Some(o)
  {
    var k :| 0 <= k < |options| && options[k] == o;
    var c := Current(options, Some(o.value));
    var i :| 0 <= i < |options| && options[i] == c.value && Some(c.value.value) == Some(o.value)
      && forall j :: 0 <= j < i ==> Some(options[j].value) != Some(o.value);
    if forall i, j :: 0 <= i < j < |options| ==> options[i].value != options[j].value {
      assert i == k;
    }
  }

  /** The picker's own state and what it has reported to its parent
      through `onChange`. */
  class Picker {
    var visible: bool
    var query: string
    var reported: seq<Option<string>>

    constructor()
      ensures !visible && query == "" && reported == []
    {
      visible := false;
      query := "";
      reported := [];
    }

    /** Pressing the field opens the list. */
    method Open()
      modifies this
      ensures visible && query == old(query) && reported == old(reported)
    {
      visible := true;
    }

    method OnChangeQuery(text: string)
      modifies this
      ensures query == text && visible == old(visible) && reported == old(reported)
    {
      query := text;
    }

    /** `close`: hides the list and forgets the query, so the next opening
        shows every option. */
    method Close(options: seq<Item>, searchable: bool)
      modifies this
      ensures !visible && query == "" && reported == old(reported)
      ensures Filtered(options, query, searchable) == options
    {
      visible := false;
      query := "";
    }

    /** "Limpar seleção", shown only when clearing is allowed and an option
        is selected: reports null and closes. */
    method Clear(options: seq<Item>, value: Option<string>, allowClear: bool)
      requires allowClear && Current(options, value).Some?
      modifies this
      ensures reported == old(reported) + [None]
      ensures !visible && query == ""
    {
      reported := reported + [None];
      visible := false;
      query := "";
    }

    /** Pressing a listed option reports its value and closes. */
    method Choose(options: seq<Item>, searchable: bool, o: Item)
      requires o in Filtered(options, query, searchable)
      modifies this
      ensures reported == old(reported) + [Some(o.value)]
      ensures !visible && query == ""
    {
      reported := reported + [Some(o.value)];
      visible := false;
      query := "";
    }
  }
}
