/** The state machine of the App component: the form's fields, the persistent
    store beside them, and one atomic transition per handler. */
module App {
  import opened Wrappers
  import opened Profiles
  import opened Suggestion
  import opened Storage

  /** The component's state, one field per state hook. */
  datatype FormState = FormState(
    temperature: int,
    grindSize: int,
    taste: string,
    suggestion: string,
    profiles: seq<CoffeeProfile>,
    coffeeName: string
  )

  /** The component together with the browser store it persists to. */
  datatype World = World(form: FormState, store: Store)

  /** The user actions the handlers respond to. Slider values arrive as the
      integers the sliders produce. */
  datatype Event =
    | TasteChanged(value: string)
    | TemperatureChanged(temperature: int)
    | GrindSizeChanged(grindSize: int)
    | NameChanged(name: string)
    | SaveClicked

  /** Fields within slider bounds, a taste the selector offers, and the advice
      that matches that taste. */
  predicate Valid(f: FormState) {
    && TemperatureInRange(f.temperature)
    && GrindSizeInRange(f.grindSize)
    && f.taste in TasteOptions
    && f.suggestion == Suggest(f.taste)
  }

  /** The in-memory list is what a reader of the store would load. */
  predicate Consistent(w: World) {
    LoadProfiles(w.store) == Success(w.form.profiles)
  }

  /** An event a control can actually produce. */
  predicate Allowed(e: Event) {
    match e
    case TasteChanged(v) => v in TasteOptions
    case TemperatureChanged(t) => TemperatureInRange(t)
    case GrindSizeChanged(g) => GrindSizeInRange(g)
    case _ => true
  }

  predicate AllAllowed(es: seq<Event>) {
    forall i :: 0 <= i < |es| ==> Allowed(es[i])
  }

  /** The state before the load effect has run. */
  function Initial(): (f: FormState)
    ensures Valid(f)
    ensures f.temperature == 90 && f.grindSize == 0
    ensures f.profiles == [] && f.coffeeName == "" && f.taste == "" && f.suggestion == ""
  {
    FormState(90, 0, "", "", [], "")
  }

  /** The load effect: replaces the in-memory list with the stored one, or
      throws when the stored text does not parse. */
  function Mount(w: World): (r: Result<World, LoadError>)
    ensures r.Success? <==> LoadProfiles(w.store).Success?
    ensures r.Success? ==> Consistent(r.value) && r.value.store == w.store
    ensures r.Success? ==>
              var f := r.value.form;
              && f.temperature == w.form.temperature && f.grindSize == w.form.grindSize
              && f.taste == w.form.taste && f.suggestion == w.form.suggestion
              && f.coffeeName == w.form.coffeeName
  {
    match LoadProfiles(w.store)
    case Success(ps) => Success(World(w.form.(profiles := ps), w.store))
    case Failure(e) => Failure(e)
  }

  /** The profile the save handler records from the current fields. */
  function Snapshot(f: FormState): (p: CoffeeProfile)
    ensures && p.temperature == f.temperature && p.grindSize == f.grindSize
            && p.taste == f.taste && p.coffeeName == Some(f.coffeeName)
  {
    CoffeeProfile(f.temperature, f.grindSize, f.taste, Some(f.coffeeName))
  }

  /** The save handler: appends a snapshot, writes the whole list back, and
      clears the name field. */
  function SaveProfile(w: World): (r: World)
    ensures |r.form.profiles| == |w.form.profiles| + 1
    ensures r.form.profiles[..|w.form.profiles|] == w.form.profiles
    ensures var p := r.form.profiles[|w.form.profiles|];
            && p.temperature == w.form.temperature && p.grindSize == w.form.grindSize
            && p.taste == w.form.taste && p.coffeeName == Some(w.form.coffeeName)
    ensures LoadProfiles(r.store) == Success(r.form.profiles)
    ensures r.store.Keys == w.store.Keys + {ProfilesKey}
    ensures forall k :: k in w.store && k != ProfilesKey ==> r.store[k] == w.store[k]
    ensures r.form.coffeeName == ""
    ensures && r.form.temperature == w.form.temperature && r.form.grindSize == w.form.grindSize
            && r.form.taste == w.form.taste && r.form.suggestion == w.form.suggestion
  {
    var updated := w.form.profiles + [Snapshot(w.form)];
    World(w.form.(profiles := updated, coffeeName := ""), SaveProfiles(w.store, updated))
  }

  /** The taste selector's handler: records the selection and its advice. */
  function ChangeTaste(f: FormState, value: string): (r: FormState)
    ensures r.taste == value
    ensures r.suggestion == Suggest(value)
    ensures value !in AdviceTable ==> r.suggestion == ""
    ensures && r.temperature == f.temperature && r.grindSize == f.grindSize
            && r.coffeeName == f.coffeeName && r.profiles == f.profiles
  {
    f.(taste := value, suggestion := Suggest(value))
  }

  function SetTemperature(f: FormState, t: int): (r: FormState)
    ensures r.temperature == t
    ensures && r.grindSize == f.grindSize && r.taste == f.taste && r.suggestion == f.suggestion
            && r.profiles == f.profiles && r.coffeeName == f.coffeeName
  {
    f.(temperature := t)
  }

  function SetGrindSize(f: FormState, g: int): (r: FormState)
    ensures r.grindSize == g
    ensures && r.temperature == f.temperature && r.taste == f.taste && r.suggestion == f.suggestion
            && r.profiles == f.profiles && r.coffeeName == f.coffeeName
  {
    f.(grindSize := g)
  }

  function SetCoffeeName(f: FormState, name: string): (r: FormState)
    ensures r.coffeeName == name
    ensures && r.temperature == f.temperature && r.grindSize == f.grindSize && r.taste == f.taste
            && r.suggestion == f.suggestion && r.profiles == f.profiles
  {
    f.(coffeeName := name)
  }

  /** One handler run to completion. Only a save touches the store. */
  function Step(w: World, e: Event): World {
    match e
    case TasteChanged(v) => World(ChangeTaste(w.form, v), w.store)
    case TemperatureChanged(t) => World(SetTemperature(w.form, t), w.store)
    case GrindSizeChanged(g) => World(SetGrindSize(w.form, g), w.store)
    case NameChanged(n) => World(SetCoffeeName(w.form, n), w.store)
    case SaveClicked => SaveProfile(w)
  }

  function CountSaves(es: seq<Event>): nat {
    if |es| == 0 then 0
    else (if es[0].SaveClicked? then 1 else 0) + CountSaves(es[1..])
  }

  /** A session: the events handled one after another. The list only grows,
      by one entry per save, and no key but the profiles key is ever written. */
  function Run(w: World, es: seq<Event>): (r: World)
    ensures |r.form.profiles| == |w.form.profiles| + CountSaves(es)
    ensures r.form.profiles[..|w.form.profiles|] == w.form.profiles
    ensures r.store.Keys <= w.store.Keys + {ProfilesKey}
    ensures forall k :: k in w.store && k != ProfilesKey ==> k in r.store && r.store[k] == w.store[k]
    decreases |es|
  {
    if |es| == 0 then w else Run(Step(w, es[0]), es[1..])
  }

  /** Every handler keeps the form valid when fed values its control can produce. */
  lemma StepPreservesValid(w: World, e: Event)
    requires Valid(w.form) && Allowed(e)
    ensures Valid(Step(w, e).form)
  {
  }

  lemma {:induction false} RunPreservesValid(w: World, es: seq<Event>)
    requires Valid(w.form) && AllAllowed(es)
    ensures Valid(Run(w, es).form)
    decreases |es|
  {
    if |es| > 0 {
      StepPreservesValid(w, es[0]);
      assert AllAllowed(es[1..]) by {
        forall i | 0 <= i < |es[1..]| ensures Allowed(es[1..][i]) {
          assert es[1..][i] == es[i + 1];
        }
      }
      RunPreservesValid(Step(w, es[0]), es[1..]);
    }
  }

  /** Every handler keeps the stored list equal to the in-memory one. */
  lemma StepPreservesConsistent(w: World, e: Event)
    requires Consistent(w)
    ensures Consistent(Step(w, e))
  {
  }

  lemma {:induction false} RunPreservesConsistent(w: World, es: seq<Event>)
    requires Consistent(w)
    ensures Consistent(Run(w, es))
    decreases |es|
  {
    if |es| > 0 {
      StepPreservesConsistent(w, es[0]);
      RunPreservesConsistent(Step(w, es[0]), es[1..]);
    }
  }

  /** Persistence across restarts: after a successful start and any session,
      starting afresh on the resulting store loads exactly the list the
      session ended with. */
  lemma ReloadAfterSession(store: Store, es: seq<Event>)
    requires Mount(World(Initial(), store)).Success?
    ensures var w := Run(Mount(World(Initial(), store)).value, es);
            Mount(World(Initial(), w.store)) == Success(World(Initial().(profiles := w.form.profiles), w.store))
  {
    RunPreservesConsistent(Mount(World(Initial(), store)).value, es);
  }

  /** Loading twice with nothing in between gives the same state. */
  lemma MountIdempotent(w: World)
    requires Mount(w).Success?
    ensures Mount(Mount(w).value) == Mount(w)
  {
  }

  /** The first save on an empty store can be read back as that one profile. */
  lemma FirstSaveReadsBack(name: string)
    ensures var w := World(Initial(), map[]);
            var m := Mount(w).value;
            var f := ChangeTaste(SetCoffeeName(m.form, name), "bitter");
            var s := SaveProfile(World(f, m.store));
            && f.suggestion == BitterAdvice
            && LoadProfiles(s.store) == Success([CoffeeProfile(90, 0, "bitter", Some(name))])
  {
  }
}
