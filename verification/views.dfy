/**
  The view selector `showView(view)`: hide every object of the registry,
  then show the fields together with at most one other collection,
  according to the view the user picked.
 */
module Views {
  import opened Scene

  /** A view name after the `switch`: one of the four named views, or a
      string that matches no case. */
  datatype View = Named(group: Group) | Unknown

  /** The literal each `case` of the switch compares the view name with. */
  function ViewName(g: Group): string {
    match g
    case Fields => "fields"
    case Crops => "crops"
    case Livestock => "livestock"
    case Equipment => "equipment"
  }

  /** Which case of the switch a view name selects (strict string equality;
      there is no `default` case). */
  function ParseView(name: string): View {
    if name == "fields" then Named(Fields)
    else if name == "crops" then Named(Crops)
    else if name == "livestock" then Named(Livestock)
    else if name == "equipment" then Named(Equipment)
    else Unknown
  }

  /** Parsing and naming are inverse: each group's literal selects that
      group, and a name that selects a group is exactly its literal. */
  lemma ParseViewRoundTrip(g: Group, name: string)
    ensures ParseView(ViewName(g)) == Named(g)
    ensures ParseView(name).Named? ==> ViewName(ParseView(name).group) == name
    ensures ParseView(name).Unknown? <==> forall h: Group :: name != ViewName(h)
  {
  }

  /** The visibility table of the demo, stated independently of the
      hide-then-show steps: a collection is shown by a view exactly when the
      view is a named one and the collection is the fields or the view's own
      collection. */
  predicate Shown(v: View, g: Group) {
    v.Named? && (g == Fields || g == v.group)
  }

  /** The first half of `showView`: every object of every collection hidden. */
  function HideAll(m: FarmModel): (r: FarmModel)
    ensures LayoutOf(r) == LayoutOf(m)
    ensures forall g: Group, i :: 0 <= i < |r.Of(g)| ==> !r.Of(g)[i].visible
  {
    FarmModel(
      SetVisible(m.fields, false),
      SetVisible(m.crops, false),
      SetVisible(m.livestock, false),
      SetVisible(m.equipment, false))
  }

  /** `showView(view)`. The result keeps the layout of the registry and
      gives every object the flag the visibility table assigns to its
      collection, whatever the flags were before. */
  function ShowView(m: FarmModel, view: string): (r: FarmModel)
    ensures LayoutOf(r) == LayoutOf(m)
    ensures forall g: Group, i :: 0 <= i < |r.Of(g)| ==> r.Of(g)[i].visible == Shown(ParseView(view), g)
  {
    var hidden := HideAll(m);
    match ParseView(view)
    case Named(Fields) =>
      hidden.(fields := SetVisible(hidden.fields, true))
    case Named(Crops) =>
      hidden.(fields := SetVisible(hidden.fields, true), crops := SetVisible(hidden.crops, true))
    case Named(Livestock) =>
      hidden.(fields := SetVisible(hidden.fields, true), livestock := SetVisible(hidden.livestock, true))
    case Named(Equipment) =>
      hidden.(fields := SetVisible(hidden.fields, true), equipment := SetVisible(hidden.equipment, true))
    case Unknown =>
      hidden
  }

  /** Every collection of `m` has all its objects visible exactly when the
      group is in `shown`, hidden otherwise. */
  predicate Exactly(m: FarmModel, shown: set<Group>) {
    forall g: Group, i :: 0 <= i < |m.Of(g)| ==> (m.Of(g)[i].visible <==> g in shown)
  }

  /** For each of the four named views, every field is visible. */
  lemma NamedViewShowsFields(m: FarmModel, g: Group, i: int)
    requires 0 <= i < |m.fields|
    ensures ShowView(m, ViewName(g)).fields[i].visible
  {
  }

  /** The fields view shows the fields and nothing else. */
  lemma FieldsViewShowsOnlyFields(m: FarmModel)
    ensures Exactly(ShowView(m, "fields"), {Fields})
  {
  }

  /** The crops, livestock and equipment views each show the fields and
      their own collection; the other two collections are hidden. */
  lemma GroupViewShowsFieldsAndGroup(m: FarmModel, g: Group)
    requires g != Fields
    ensures Exactly(ShowView(m, ViewName(g)), {Fields, g})
  {
  }

  /** A view name that matches no case hides every object of every
      collection; it is not an error. */
  lemma UnknownViewHidesAll(m: FarmModel, view: string)
    requires forall g: Group :: view != ViewName(g)
    ensures Exactly(ShowView(m, view), {})
  {
    ParseViewRoundTrip(Fields, view);
  }

  /** The result of `showView` depends on the view and on the layout of the
      registry only, never on the visibility flags it starts from. */
  lemma ShowViewForgetsFlags(a: FarmModel, b: FarmModel, view: string)
    requires LayoutOf(a) == LayoutOf(b)
    ensures ShowView(a, view) == ShowView(b, view)
  {
    var ra, rb := ShowView(a, view), ShowView(b, view);
    forall g: Group
      ensures ra.Of(g) == rb.Of(g)
    {
      SameFlagsSameCollection(ra.Of(g), rb.Of(g));
    }
    assert ra.fields == ra.Of(Fields) == rb.Of(Fields) == rb.fields;
    assert ra.crops == ra.Of(Crops) == rb.Of(Crops) == rb.crops;
    assert ra.livestock == ra.Of(Livestock) == rb.Of(Livestock) == rb.livestock;
    assert ra.equipment == ra.Of(Equipment) == rb.Of(Equipment) == rb.equipment;
  }

  /** Showing the same view twice is the same as showing it once. */
  lemma ShowViewIdempotent(m: FarmModel, view: string)
    ensures ShowView(ShowView(m, view), view) == ShowView(m, view)
  {
    ShowViewForgetsFlags(ShowView(m, view), m, view);
  }

  /** Only the last view shown matters: `showView(v)` after `showView(u)`
      is `showView(v)` alone. */
  lemma LastViewWins(m: FarmModel, u: string, v: string)
    ensures ShowView(ShowView(m, u), v) == ShowView(m, v)
  {
    ShowViewForgetsFlags(ShowView(m, u), m, v);
  }
}
