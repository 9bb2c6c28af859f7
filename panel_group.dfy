/** A group of panels shown as vertical tabs. The selected panel lives in the URL
    (the `:panel` route parameter); the last used panel of each page is remembered in
    local state, and the index route redirects to it. */
module PanelGroup {
  import opened Wrappers

  /** One panel; `hasContent` says whether the caller supplied content for it. */
  datatype Panel = Panel(name: string, caption: string, hidden: bool, disabled: bool,
                         hasContent: bool, showHeadline: Option<bool>)

  /** A tab in the tab list. */
  datatype Tab = Tab(name: string, caption: string, disabled: bool)

  datatype Content = SuppliedContent | PlaceholderContent

  /** The rendered body of a panel: an optional headline and its content. */
  datatype Body = Body(name: string, headline: Option<string>, content: Content)

  /** The panels that can be shown: neither hidden nor disabled, in their order. */
  function ActivePanels(panels: seq<Panel>): seq<Panel>
    decreases |panels|
  {
    if panels == [] then []
    else if !panels[0].hidden && !panels[0].disabled then [panels[0]] + ActivePanels(panels[1..])
    else ActivePanels(panels[1..])
  }

  lemma {:induction false} ActivePanelsSpec(panels: seq<Panel>)
    ensures forall p :: p in ActivePanels(panels) <==> p in panels && !p.hidden && !p.disabled
    ensures |ActivePanels(panels)| <= |panels|
    decreases |panels|
  {
    if panels != [] {
      ActivePanelsSpec(panels[1..]);
      assert forall p :: p in panels <==> p == panels[0] || p in panels[1..];
    }
  }

  /** Filtering keeps the order: the active panels of a concatenation are the active
      panels of each part, one after the other. */
  lemma {:induction false} ActivePanelsAppend(a: seq<Panel>, b: seq<Panel>)
    ensures ActivePanels(a + b) == ActivePanels(a) + ActivePanels(b)
    decreases |a|
  {
    if a != [] {
      assert (a + b)[0] == a[0] && (a + b)[1..] == a[1..] + b;
      ActivePanelsAppend(a[1..], b);
    } else {
      assert a + b == b;
    }
  }

  /** `findIndex(p => p.name === name)`: the first position whose panel has that name,
      or -1; a missing name (null or undefined) matches nothing. */
  function IndexOfName(ps: seq<Panel>, name: Option<string>): (r: int)
    ensures -1 <= r < |ps|
    ensures r == -1 <==> forall p :: p in ps ==> Some(p.name) != name
    ensures r >= 0 ==> Some(ps[r].name) == name && forall j :: 0 <= j < r ==> Some(ps[j].name) != name
    decreases |ps|
  {
    if ps == [] then -1
    else if Some(ps[0].name) == name then 0
    else
      var rest := IndexOfName(ps[1..], name);
      assert forall p :: p in ps ==> p == ps[0] || p in ps[1..];
      if rest == -1 then -1 else rest + 1
  }

  /** The name is that of a panel that can be shown. */
  predicate IsActiveName(panels: seq<Panel>, name: Option<string>) {
    IndexOfName(ActivePanels(panels), name) != -1
  }

  lemma ActiveNameMeans(panels: seq<Panel>, name: string)
    ensures IsActiveName(panels, Some(name)) <==>
      exists p :: p in panels && !p.hidden && !p.disabled && p.name == name
  {
    ActivePanelsSpec(panels);
  }

  /** JavaScript truthiness of an optional string: present and not empty. */
  predicate Truthy(s: Option<string>) {
    s.Some? && s.value != ""
  }

  /** The candidate the index route starts from:
      `selectedPanel || lastUsedPanels[pageKey] || panels[0]?.name`. */
  function IndexCandidate(panels: seq<Panel>, selected: Option<string>,
                          lastUsed: map<string, string>, pageKey: string): (c: Option<string>)
    ensures Truthy(selected) ==> c == selected
    ensures !Truthy(selected) && pageKey in lastUsed && lastUsed[pageKey] != "" ==> c == Some(lastUsed[pageKey])
    ensures !Truthy(selected) && !(pageKey in lastUsed && lastUsed[pageKey] != "") ==>
      c == (if panels == [] then None else Some(panels[0].name))
  {
    if Truthy(selected) then selected
    else if pageKey in lastUsed && lastUsed[pageKey] != "" then Some(lastUsed[pageKey])
    else if panels == [] then None
    else Some(panels[0].name)
  }

  /** The panel the index route redirects to: the candidate when it names a panel that
      can be shown, else the first such panel, else ''. */
  function IndexTarget(panels: seq<Panel>, selected: Option<string>,
                       lastUsed: map<string, string>, pageKey: string): (r: string)
    ensures r == "" || IsActiveName(panels, Some(r))
    ensures IsActiveName(panels, IndexCandidate(panels, selected, lastUsed, pageKey)) ==>
      Some(r) == IndexCandidate(panels, selected, lastUsed, pageKey)
    ensures !IsActiveName(panels, IndexCandidate(panels, selected, lastUsed, pageKey)) ==>
      r == (if ActivePanels(panels) == [] then "" else ActivePanels(panels)[0].name)
  {
    var candidate := IndexCandidate(panels, selected, lastUsed, pageKey);
    if IsActiveName(panels, candidate) then candidate.value
    else if ActivePanels(panels) == [] then ""
    else ActivePanels(panels)[0].name
  }

  /** The route a relative navigation to `name` lands on: '' is the index route. */
  function RouteTo(name: string): (route: Option<string>)
    ensures route.None? <==> name == ""
    ensures route.Some? ==> route.value == name
  {
    if name == "" then None else Some(name)
  }

  /** The panels the tab list and the bodies are rendered for: the ones not hidden,
      in their order. */
  function ShownPanels(panels: seq<Panel>): seq<Panel>
    decreases |panels|
  {
    if panels == [] then []
    else if panels[0].hidden then ShownPanels(panels[1..])
    else [panels[0]] + ShownPanels(panels[1..])
  }

  lemma {:induction false} ShownPanelsSpec(panels: seq<Panel>)
    ensures forall p :: p in ShownPanels(panels) <==> p in panels && !p.hidden
    decreases |panels|
  {
    if panels != [] {
      ShownPanelsSpec(panels[1..]);
      assert forall p :: p in panels <==> p == panels[0] || p in panels[1..];
    }
  }

  /** The tab of one panel: disabled panels get a disabled tab. */
  function TabOf(p: Panel): Tab {
    Tab(p.name, p.caption, p.disabled)
  }

  /** The tab list: one tab per panel that is not hidden, disabled ones included,
      in the order of the panels. */
  function VisibleTabs(panels: seq<Panel>): (tabs: seq<Tab>)
    ensures |tabs| == |ShownPanels(panels)|
    ensures forall i :: 0 <= i < |tabs| ==> tabs[i] == TabOf(ShownPanels(panels)[i])
    ensures forall p :: p in panels && !p.hidden ==> TabOf(p) in tabs
    decreases |panels|
  {
    if panels == [] then []
    else
      var rest := VisibleTabs(panels[1..]);
      assert forall p :: p in panels ==> p == panels[0] || p in panels[1..];
      if panels[0].hidden then rest
      else
        var tabs := [TabOf(panels[0])] + rest;
        assert forall i :: 1 <= i < |tabs| ==> tabs[i] == rest[i - 1];
        tabs
  }

  /** The enabled tabs are exactly those of the panels that can be shown. */
  lemma EnabledTabs(panels: seq<Panel>)
    ensures forall t :: t in VisibleTabs(panels) && !t.disabled ==> IsActiveName(panels, Some(t.name))
    ensures forall p :: p in ActivePanels(panels) ==> Tab(p.name, p.caption, false) in VisibleTabs(panels)
  {
    ActivePanelsSpec(panels);
    ShownPanelsSpec(panels);
    forall t | t in VisibleTabs(panels) && !t.disabled
      ensures IsActiveName(panels, Some(t.name))
    {
      var k :| 0 <= k < |VisibleTabs(panels)| && VisibleTabs(panels)[k] == t;
      var p := ShownPanels(panels)[k];
      assert p in ActivePanels(panels);
    }
  }

  /** The body of a panel: the label as headline unless `showHeadline` is explicitly
      false, and the placeholder when no content was supplied. */
  function BodyOf(p: Panel): (b: Body)
    ensures b.name == p.name
    ensures b.headline.Some? <==> p.showHeadline != Some(false)
    ensures b.headline.Some? ==> b.headline.value == p.caption
    ensures b.content.PlaceholderContent? <==> !p.hasContent
  {
    Body(p.name, if p.showHeadline == Some(false) then None else Some(p.caption),
         if p.hasContent then SuppliedContent else PlaceholderContent)
  }

  /** The bodies rendered: one per panel that is not hidden, in order. */
  function Bodies(panels: seq<Panel>): (bs: seq<Body>)
    ensures |bs| == |ShownPanels(panels)|
    ensures forall i :: 0 <= i < |bs| ==> bs[i] == BodyOf(ShownPanels(panels)[i])
    ensures forall p :: p in panels && !p.hidden ==> BodyOf(p) in bs
    ensures forall b :: b in bs ==> exists p :: p in panels && !p.hidden && b == BodyOf(p)
    decreases |panels|
  {
    if panels == [] then []
    else
      var rest := Bodies(panels[1..]);
      assert forall p :: p in panels ==> p == panels[0] || p in panels[1..];
      if panels[0].hidden then rest else [BodyOf(panels[0])] + rest
  }

  /** Tabs and bodies line up: there are as many tabs as bodies, and the i-th tab
      and the i-th body belong to the same panel. */
  lemma TabsMatchBodies(panels: seq<Panel>)
    ensures |VisibleTabs(panels)| == |Bodies(panels)|
    ensures forall i :: 0 <= i < |VisibleTabs(panels)| ==>
      VisibleTabs(panels)[i].name == Bodies(panels)[i].name &&
      VisibleTabs(panels)[i].caption == ShownPanels(panels)[i].caption
  {
  }

  /** The panel group of one page, with the URL's panel and the remembered panels. */
  class PanelGroupView {
    const pageKey: string
    const panels: seq<Panel>
    const hasCallback: bool
    /** The `:panel` route parameter; None on the index route. */
    var panel: Option<string>
    /** The local-state map from page key to last used panel. */
    var lastUsedPanels: map<string, string>
    /** The arguments `onPanelChange` was called with, oldest first. */
    var notified: seq<string>

    /** The URL shows the index route or a panel that can be shown. */
    predicate Settled()
      reads this
    {
      panel.None? || IsActiveName(panels, panel)
    }

    constructor (pageKey: string, panels: seq<Panel>, hasCallback: bool,
                 panel: Option<string>, lastUsedPanels: map<string, string>)
      ensures this.pageKey == pageKey && this.panels == panels && this.hasCallback == hasCallback
      ensures this.panel == panel && this.lastUsedPanels == lastUsedPanels && notified == []
    {
      this.pageKey := pageKey;
      this.panels := panels;
      this.hasCallback := hasCallback;
      this.panel := panel;
      this.lastUsedPanels := lastUsedPanels;
      notified := [];
    }

    /** On first render, a panel given in the URL becomes the page's last used panel. */
    method InitialEffect()
      modifies this
      ensures Truthy(old(panel)) ==> lastUsedPanels == old(lastUsedPanels)[pageKey := old(panel).value]
      ensures !Truthy(old(panel)) ==> lastUsedPanels == old(lastUsedPanels)
      ensures panel == old(panel) && notified == old(notified)
    {
      if Truthy(panel) {
        lastUsedPanels := lastUsedPanels[pageKey := panel.value];
      }
    }

    /** `handlePanelChange`: a name that is not an active panel clears the remembered
        panel and goes to the index route; otherwise the URL moves to that panel and a
        non-empty name is reported to the callback, if there is one. */
    method HandlePanelChange(p: Option<string>)
      modifies this
      ensures Settled()
      ensures !IsActiveName(panels, p) ==>
        lastUsedPanels == old(lastUsedPanels)[pageKey := ""] && panel.None? && notified == old(notified)
      ensures IsActiveName(panels, p) ==>
        lastUsedPanels == old(lastUsedPanels) && panel == RouteTo(p.value) &&
        notified == old(notified) + (if p.value != "" && hasCallback then [p.value] else [])
    {
      if !IsActiveName(panels, p) {
        lastUsedPanels := lastUsedPanels[pageKey := ""];
        panel := None;
        return;
      }
      panel := RouteTo(p.value);
      if p.value != "" && hasCallback {
        notified := notified + [p.value];
      }
    }

    /** A truthy `selectedPanel` that differs from the URL's panel is applied as a
        panel change. */
    method SelectedPanelEffect(selected: Option<string>)
      modifies this
      ensures Truthy(selected) && selected != old(panel) && IsActiveName(panels, selected) ==>
        panel == selected && lastUsedPanels == old(lastUsedPanels) &&
        notified == old(notified) + (if hasCallback then [selected.value] else [])
      ensures Truthy(selected) && selected != old(panel) && !IsActiveName(panels, selected) ==>
        panel.None? && lastUsedPanels == old(lastUsedPanels)[pageKey := ""] && notified == old(notified)
      ensures !(Truthy(selected) && selected != old(panel)) ==>
        panel == old(panel) && lastUsedPanels == old(lastUsedPanels) && notified == old(notified)
    {
      if Truthy(selected) && selected != panel {
        HandlePanelChange(selected);
      }
    }

    /** When the URL's panel is no longer active, the remembered panel is cleared and
        the index route is shown. The effect belongs to the component mounted on the
        route with a `:panel` parameter, so the URL always carries a panel here. */
    method ActivePanelEffect()
      requires panel.Some?
      modifies this
      ensures Settled()
      ensures IsActiveName(panels, old(panel)) ==> panel == old(panel) && lastUsedPanels == old(lastUsedPanels)
      ensures !IsActiveName(panels, old(panel)) ==> panel.None? && lastUsedPanels == old(lastUsedPanels)[pageKey := ""]
      ensures notified == old(notified)
    {
      if !IsActiveName(panels, panel) {
        lastUsedPanels := lastUsedPanels[pageKey := ""];
        panel := None;
      }
    }

    /** The index route redirects to `IndexTarget`. */
    method ResolveIndex(selected: Option<string>)
      requires panel.None?
      modifies this
      ensures Settled()
      ensures panel == RouteTo(IndexTarget(panels, selected, old(lastUsedPanels), pageKey))
      ensures lastUsedPanels == old(lastUsedPanels) && notified == old(notified)
    {
      panel := RouteTo(IndexTarget(panels, selected, lastUsedPanels, pageKey));
    }
  }

  /** With an active panel remembered and no panel selected, the index route goes back
      to the remembered panel. */
  lemma IndexReturnsToLastUsed(panels: seq<Panel>, lastUsed: map<string, string>, pageKey: string)
    requires pageKey in lastUsed && lastUsed[pageKey] != ""
    requires IsActiveName(panels, Some(lastUsed[pageKey]))
    ensures IndexTarget(panels, None, lastUsed, pageKey) == lastUsed[pageKey]
  {
  }

  /** A truthy selected panel that can be shown wins over the remembered one. */
  lemma IndexPrefersSelected(panels: seq<Panel>, selected: string, lastUsed: map<string, string>, pageKey: string)
    requires selected != "" && IsActiveName(panels, Some(selected))
    ensures IndexTarget(panels, Some(selected), lastUsed, pageKey) == selected
  {
  }
}
