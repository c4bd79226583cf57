/** The tools view: the search over suggested tools the user does not own
    yet, the custom-tool form and the category badge colours. */
module ToolsSection {
  import opened Wrappers
  import opened Strings
  import opened LearningPaths
  import Lists

  predicate Owned(t: Tool, userTools: seq<Tool>) {
    exists u :: u in userTools && u.id == t.id
  }

  /** The query, lower-cased, occurs in the lower-cased name, category or
      description. */
  predicate MatchesQuery(t: Tool, query: string)
    ensures query == "" ==> MatchesQuery(t, query)
  {
    var q := ToLower(query);
    assert query == "" ==> |q| == 0 && ToLower(t.name)[0..0] == q && OccursAt(ToLower(t.name), q, 0);
    Contains(ToLower(t.name), q) || Contains(ToLower(t.category), q) || Contains(ToLower(t.description), q)
  }

  predicate Kept(t: Tool, userTools: seq<Tool>, query: string) {
    !Owned(t, userTools) && (query == "" || MatchesQuery(t, query))
  }

  /** `filteredSuggested`: the suggested tools, in their order, that the user
      does not own and that match the query (every one when it is empty). */
  function FilteredSuggested(suggested: seq<Tool>, userTools: seq<Tool>, query: string): (r: seq<Tool>)
    ensures Lists.IsSubsequence(r, suggested)
    ensures forall t :: t in r <==> t in suggested && Kept(t, userTools, query)
    ensures forall t :: multiset(r)[t] == if Kept(t, userTools, query) then multiset(suggested)[t] else 0
  {
    if suggested == [] then []
    else
      var rest := FilteredSuggested(suggested[1..], userTools, query);
      assert suggested == [suggested[0]] + suggested[1..];
      if Kept(suggested[0], userTools, query) then
        Lists.SubsequencePrepend(rest, suggested[1..], suggested[0]);
        [suggested[0]] + rest
      else
        Lists.SubsequenceTail(rest, suggested);
        rest
  }

  /** The search ignores the case of the query. */
  lemma {:induction false} SearchIgnoresQueryCase(suggested: seq<Tool>, userTools: seq<Tool>, query: string)
    ensures FilteredSuggested(suggested, userTools, ToUpper(query)) == FilteredSuggested(suggested, userTools, query)
  {
    LowerOfUpper(query);
    if suggested != [] {
      SearchIgnoresQueryCase(suggested[1..], userTools, query);
    }
  }

  // ----- custom tools ----------------------------------------------------------------

  /** The custom-tool form's fields. */
  datatype Draft = Draft(name: string, category: string, description: string, url: string)

  const EmptyDraft := Draft("", "", "", "")

  /** The tool `handleAddCustomTool` builds at time `now`: none for a blank
      name; otherwise a custom tool with id `custom-<now>` whose category
      defaults to `Custom`. */
  function BuildCustomTool(draft: Draft, now: nat): (r: Option<Tool>)
    ensures r.None? <==> AllWhitespace(draft.name)
    ensures r.Some? ==>
      && r.value.isCustom == Some(true)
      && |r.value.id| > 7 && r.value.id[..7] == "custom-" && r.value.id[7..] == NatToString(now)
      && r.value.name == draft.name && r.value.description == draft.description
      && r.value.url == Some(draft.url)
      && r.value.category == (if draft.category == "" then "Custom" else draft.category)
  {
    BlankIffAllWhitespace(draft.name);
    if IsBlank(draft.name) then None
    else
      Some(Tool("custom-" + NatToString(now), draft.name,
                if draft.category == "" then "Custom" else draft.category,
                draft.description, Some(draft.url), Some(true)))
  }

  class ToolsPanel {
    var showCustomForm: bool
    var customTool: Draft

    constructor ()
      ensures !showCustomForm && customTool == EmptyDraft
    {
      showCustomForm := false;
      customTool := EmptyDraft;
    }

    /** Returns the tool handed to `onAddTool`, if any: with a blank name
        nothing happens; otherwise the form is emptied and hidden. */
    method AddCustomTool(now: nat) returns (added: Option<Tool>)
      modifies this
      ensures added == BuildCustomTool(old(customTool), now)
      ensures added.None? ==> customTool == old(customTool) && showCustomForm == old(showCustomForm)
      ensures added.Some? ==> customTool == EmptyDraft && !showCustomForm
    {
      added := BuildCustomTool(customTool, now);
      if added.None? {
        return;
      }
      customTool := EmptyDraft;
      showCustomForm := false;
    }
  }

  // ----- category colours ----------------------------------------------------------

  const LearningColor := "bg-cosmic-blue/10 text-cosmic-blue border-cosmic-blue/20"
  const OrganizationColor := "bg-oracle-glow/10 text-oracle-glow border-oracle-glow/20"
  const DevelopmentColor := "bg-ethereal-purple/10 text-ethereal-purple border-ethereal-purple/20"
  const CustomColor := "bg-mystic-gold/10 text-mystic-gold border-mystic-gold/20"
  const DefaultColor := "bg-muted/10 text-muted-foreground border-muted/20"

  const CategoryColors: map<string, string> := map[
    "Learning" := LearningColor,
    "Organization" := OrganizationColor,
    "Development" := DevelopmentColor,
    "Custom" := CustomColor
  ]

  /** The names every object literal inherits from `Object.prototype`;
      reading one of them from `colors` gives a truthy member, never
      `undefined`. */
  const InheritedKeys: set<string> := {
    "constructor", "hasOwnProperty", "isPrototypeOf", "propertyIsEnumerable",
    "toLocaleString", "toString", "valueOf", "__proto__",
    "__defineGetter__", "__defineSetter__", "__lookupGetter__", "__lookupSetter__"
  }

  /** What `colors[category] || default` yields: one of the class strings,
      or the inherited member named by the category. */
  datatype CategoryClass = Styled(classes: string) | Inherited(key: string)

  /** `getCategoryColor`: one of four classes for the four known categories
      (matched exactly, case included); an inherited member for the names
      of `Object.prototype`, since the lookup is on a plain object and the
      category is free text; the muted class otherwise. */
  function CategoryColor(category: string): (r: CategoryClass)
    ensures r.Inherited? <==> category in InheritedKeys
    ensures r.Inherited? ==> r.key == category
    ensures r.Styled? ==> r.classes in {LearningColor, OrganizationColor, DevelopmentColor, CustomColor, DefaultColor}
    ensures r == Styled(DefaultColor) <==>
              category !in {"Learning", "Organization", "Development", "Custom"} && category !in InheritedKeys
    ensures category == "Custom" ==> r == Styled(CustomColor)
  {
    if category in CategoryColors then Styled(CategoryColors[category])
    else if category in InheritedKeys then Inherited(category)
    else Styled(DefaultColor)
  }
}
