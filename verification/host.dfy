/**
  The page's event handlers that drive the scene: opening the demo modal
  (build the scene on first use, then reset to the fields view) and the
  view buttons (show the button's view).
 */
module Host {
  import opened Scene
  import opened Views
  import opened Farm

  /** What the page remembers between events: whether the `scene` global
      is set (which `init()` does as its first step) and the registry. */
  datatype Page = Page(sceneBuilt: bool, model: FarmModel)

  /** The page right after loading: no scene, an empty registry. */
  const PageLoaded := Page(false, EmptyModel)

  /** An event the page reacts to. Opening the demo carries the values
      `Math.random()` would return if the scene were built now. */
  datatype Event = OpenDemo(random: seq<real>) | SelectView(name: string)

  predicate WellFormed(e: Event) {
    e.OpenDemo? ==> |e.random| == DrawCount
  }

  predicate AllWellFormed(events: seq<Event>) {
    forall k :: 0 <= k < |events| ==> WellFormed(events[k])
  }

  /** The demo button's click handler: build the scene only if it does not
      exist yet, then show the default `fields` view. */
  function OpenDemo(p: Page, random: seq<real>): (q: Page)
    requires |random| == DrawCount
    ensures q.sceneBuilt
    ensures p.sceneBuilt ==> LayoutOf(q.model) == LayoutOf(p.model)
    ensures !p.sceneBuilt ==> LayoutOf(q.model) == LayoutOf(InitializeFarmElements(p.model, random))
    ensures ShowView(q.model, "fields") == q.model
  {
    var built := if p.sceneBuilt then p.model else InitializeFarmElements(p.model, random);
    ShowViewIdempotent(built, "fields");
    Page(true, ShowView(built, "fields"))
  }

  /** A view button's click handler. */
  function SelectView(p: Page, name: string): (q: Page)
    ensures q.sceneBuilt == p.sceneBuilt
    ensures LayoutOf(q.model) == LayoutOf(p.model)
    ensures forall g: Group, i :: 0 <= i < |q.model.Of(g)| ==>
              q.model.Of(g)[i].visible == Shown(ParseView(name), g)
  {
    p.(model := ShowView(p.model, name))
  }

  function Step(p: Page, e: Event): Page
    requires WellFormed(e)
  {
    match e
    case OpenDemo(random) => OpenDemo(p, random)
    case SelectView(name) => SelectView(p, name)
  }

  /** The page after a sequence of events, in order. */
  function Run(p: Page, events: seq<Event>): Page
    requires AllWellFormed(events)
    decreases |events|
  {
    if events == [] then p
    else Run(Step(p, events[0]), events[1..])
  }

  datatype Option<T> = None | Some(value: T)

  /** The draws of the first demo opening in `events`, if there is one. */
  function FirstOpen(events: seq<Event>): (r: Option<seq<real>>)
    requires AllWellFormed(events)
    ensures r.Some? ==> |r.value| == DrawCount
  {
    if events == [] then None
    else if events[0].OpenDemo? then Some(events[0].random)
    else FirstOpen(events[1..])
  }

  /** Once the scene exists, no event builds it again: the layout of the
      registry never changes afterwards. */
  lemma {:induction false} BuiltSceneIsKept(p: Page, events: seq<Event>)
    requires AllWellFormed(events)
    requires p.sceneBuilt
    ensures Run(p, events).sceneBuilt
    ensures LayoutOf(Run(p, events).model) == LayoutOf(p.model)
    decreases |events|
  {
    if events != [] {
      assert WellFormed(events[0]);
      BuiltSceneIsKept(Step(p, events[0]), events[1..]);
    }
  }

  /** From page load, across any sequence of events the scene is built at
      most once: it exists exactly when the demo has been opened, and then
      the registry has the layout that the first opening built, with 4
      fields, 16 crops, 5 animals and 1 tractor. */
  lemma {:induction false} SceneBuiltAtMostOnce(events: seq<Event>)
    requires AllWellFormed(events)
    ensures var q := Run(PageLoaded, events);
      && (q.sceneBuilt <==> FirstOpen(events).Some?)
      && (FirstOpen(events).None? ==> LayoutOf(q.model) == LayoutOf(EmptyModel))
      && (FirstOpen(events).Some? ==> LayoutOf(q.model) == LayoutOf(InitialModel(FirstOpen(events).value)))
      && (FirstOpen(events).Some? ==>
            |q.model.fields| == 4 && |q.model.crops| == 16
            && |q.model.livestock| == 5 && |q.model.equipment| == 1)
    decreases |events|
  {
    if events == [] {
    } else {
      var e := events[0];
      assert WellFormed(e);
      assert Run(PageLoaded, events) == Run(Step(PageLoaded, e), events[1..]);
      match e
      case OpenDemo(random) =>
        var p := Step(PageLoaded, e);
        BuiltSceneIsKept(p, events[1..]);
        assert LayoutOf(p.model) == LayoutOf(InitialModel(random));
        var m := InitialModel(random);
        assert |m.fields| == 4 && |m.crops| == 16 && |m.livestock| == 5 && |m.equipment| == 1;
        var q := Run(PageLoaded, events);
        assert |Positions(q.model.fields)| == |Positions(m.fields)|;
        assert |Positions(q.model.crops)| == |Positions(m.crops)|;
        assert |Positions(q.model.livestock)| == |Positions(m.livestock)|;
        assert |Positions(q.model.equipment)| == |Positions(m.equipment)|;
      case SelectView(name) =>
        var p := Step(PageLoaded, e);
        assert p.sceneBuilt == false;
        assert p == PageLoaded by {
          assert LayoutOf(p.model) == LayoutOf(EmptyModel);
          assert p.model.fields == [] && p.model.crops == [] && p.model.livestock == [] && p.model.equipment == [];
        }
        SceneBuiltAtMostOnce(events[1..]);
    }
  }

  /** Every event of the sequence is a view-button click. */
  predicate AllViewClicks(events: seq<Event>) {
    forall k :: 0 <= k < |events| ==> events[k].SelectView?
  }

  /** After any non-empty run of view-button clicks the page is what the
      last click alone makes of it: earlier clicks leave no trace. */
  lemma {:induction false} ViewClicksLastWins(p: Page, events: seq<Event>)
    requires |events| > 0 && AllViewClicks(events)
    ensures AllWellFormed(events)
    ensures Run(p, events) == SelectView(p, events[|events| - 1].name)
    decreases |events|
  {
    assert AllWellFormed(events) by {
      forall k | 0 <= k < |events| ensures WellFormed(events[k]) {
        assert events[k].SelectView?;
      }
    }
    var rest := events[1..];
    var p' := Step(p, events[0]);
    assert Run(p, events) == Run(p', rest);
    if |rest| == 0 {
    } else {
      assert AllViewClicks(rest) by {
        forall k | 0 <= k < |rest| ensures rest[k].SelectView? {
          assert rest[k] == events[k + 1];
        }
      }
      ViewClicksLastWins(p', rest);
      assert rest[|rest| - 1] == events[|events| - 1];
      LastViewWins(p.model, events[0].name, events[|events| - 1].name);
    }
  }

  /** After every opening of the demo, whatever happened before, the
      fields are visible and the crops, livestock and tractor are hidden. */
  lemma OpenShowsFieldsView(p: Page, random: seq<real>)
    requires |random| == DrawCount
    ensures Exactly(OpenDemo(p, random).model, {Fields})
  {
  }
}
