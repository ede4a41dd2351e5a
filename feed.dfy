/**
 * The state of the page and the handlers that change it. `App` holds the
 * state the top component owns; `NewFactForm` and `FactItem` hold the state
 * of the form and of one listed fact, and write into the `App` they belong to.
 * Every answer of the remote store is a parameter: the model does not decide it.
 */
module Feed {
  import opened Wrappers
  import opened Facts
  import opened Validation
  import opened Query

  /** The store's error object; only its presence matters to the page. */
  datatype StoreError = StoreError(message: string)

  /** The alert texts the page shows. */
  const LoadFailedAlert: string := "Cannot Load Data!"
  const InsertFailedAlert: string := "Error! Cannot insert into database"
  const InvalidFormAlert: string := "Please enter valid details in the form!"

  class App {
    var facts: seq<Fact>
    var showForm: bool
    var isLoading: bool
    var currCat: string
    /** The alerts raised so far, oldest first. */
    var alerts: seq<string>

    /** The initial state: no facts, form closed, not loading, all categories. */
    constructor ()
      ensures facts == [] && !showForm && !isLoading && currCat == AllCategories && alerts == []
    {
      facts := [];
      showForm := false;
      isLoading := false;
      currCat := AllCategories;
      alerts := [];
    }

    /** The header button: flips whether the form is shown, and nothing else. */
    method ToggleForm()
      modifies this
      ensures showForm == !old(showForm)
      ensures facts == old(facts) && isLoading == old(isLoading)
      ensures currCat == old(currCat) && alerts == old(alerts)
    {
      showForm := !showForm;
    }

    /**
     * The first half of `getFacts`, up to the `await`: raises the loading flag
     * and returns the query for the current category.
     */
    method BeginGetFacts() returns (q: FactsQuery)
      modifies this
      ensures isLoading
      ensures q == QueryFor(currCat)
      ensures facts == old(facts) && showForm == old(showForm)
      ensures currCat == old(currCat) && alerts == old(alerts)
    {
      isLoading := true;
      q := QueryFor(currCat);
    }

    /**
     * The second half of `getFacts`, when the store answers: the rows replace
     * the list on success, an error keeps the list and raises an alert, and
     * the loading flag is cleared either way. Nothing compares the answer
     * with the category that is current now.
     */
    method EndGetFacts(answer: Result<seq<Fact>, StoreError>)
      modifies this
      ensures facts == (if answer.Ok? then answer.value else old(facts))
      ensures !isLoading
      ensures alerts == old(alerts) + (if answer.Err? then [LoadFailedAlert] else [])
      ensures showForm == old(showForm) && currCat == old(currCat)
      ensures answer.Ok? && Answers(QueryFor(currCat), answer.value) ==>
        |facts| <= PageSize &&
        (currCat != AllCategories ==> forall i :: 0 <= i < |facts| ==> facts[i].category == currCat)
    {
      if answer.Ok? && currCat != AllCategories && Answers(QueryFor(currCat), answer.value) {
        AnswerStaysInCategory(currCat, answer.value);
      }
      if answer.Ok? {
        facts := answer.value;
      } else {
        alerts := alerts + [LoadFailedAlert];
      }
      isLoading := false;
    }

    /**
     * A category button. Setting the category to its current value changes
     * nothing and starts no fetch; any other value becomes current and the
     * effect starts a fetch for it.
     */
    method SelectCategory(name: string) returns (q: Option<FactsQuery>)
      modifies this
      ensures currCat == name
      ensures name == old(currCat) ==> q == None && isLoading == old(isLoading)
      ensures name != old(currCat) ==> q == Some(QueryFor(name)) && isLoading
      ensures facts == old(facts) && showForm == old(showForm) && alerts == old(alerts)
    {
      if name == currCat {
        q := None;
      } else {
        currCat := name;
        var started := BeginGetFacts();
        q := Some(started);
      }
    }
  }

  class NewFactForm {
    /** The page whose list and form flag the form updates. */
    const app: App
    var text: string
    var source: string
    var category: string
    var isUploading: bool

    constructor (app: App)
      ensures this.app == app
      ensures text == "" && source == "" && category == "" && !isUploading
    {
      this.app := app;
      text := "";
      source := "";
      category := "";
      isUploading := false;
    }

    method SetText(t: string)
      modifies this`text
      ensures text == t
    {
      text := t;
    }

    method SetSource(s: string)
      modifies this`source
      ensures source == s
    {
      source := s;
    }

    method SetCategory(c: string)
      modifies this`category
      ensures category == c
    {
      category := c;
    }

    /**
     * `handleSubmit`, run from the form while it is shown. `parse` is the browser's URL parser and `inserted` the
     * store's answer to the insert, consulted only when the guard passes.
     * A refused submission only raises an alert. An attempted one prepends the
     * new row on success, raises an alert on failure, and in both cases ends
     * with the upload flag cleared and the form closed.
     */
    method HandleSubmit(parse: string -> Option<string>, inserted: Result<Fact, StoreError>)
      returns (attempted: bool)
      requires app.showForm
      modifies this, app
      ensures attempted == CanSubmit(text, source, category, parse)
      ensures text == old(text) && source == old(source) && category == old(category)
      ensures !attempted ==>
        && app.facts == old(app.facts)
        && app.showForm == old(app.showForm)
        && isUploading == old(isUploading)
        && app.alerts == old(app.alerts) + [InvalidFormAlert]
      ensures attempted ==>
        && app.facts == (if inserted.Ok? then Prepend(old(app.facts), inserted.value) else old(app.facts))
        && !app.showForm
        && !isUploading
        && app.alerts == old(app.alerts) + (if inserted.Err? then [InsertFailedAlert] else [])
      ensures app.isLoading == old(app.isLoading) && app.currCat == old(app.currCat)
    {
      attempted := CanSubmit(text, source, category, parse);
      if attempted {
        isUploading := true;
        if inserted.Ok? {
          app.facts := Prepend(app.facts, inserted.value);
        } else {
          app.alerts := app.alerts + [InsertFailedAlert];
        }
        isUploading := false;
        app.showForm := false;
      } else {
        app.alerts := app.alerts + [InvalidFormAlert];
      }
    }
  }

  /** One listed fact: its own vote-in-flight flag and the page it patches. */
  class FactItem {
    const app: App
    var isUpdating: bool

    constructor (app: App)
      ensures this.app == app && !isUpdating
    {
      this.app := app;
      isUpdating := false;
    }

    /**
     * `handleVote`. `fact` is the fact as this item displayed it when clicked,
     * `updated` the store's answer to the update. Returns the update sent.
     * On success every entry with the fact's id is replaced by the returned
     * row; a failure is ignored without an alert.
     */
    method HandleVote(fact: Fact, field: VoteField, updated: Result<Fact, StoreError>)
      returns (request: VoteUpdate)
      modifies this, app
      ensures request == VoteRequest(fact, field)
      ensures !isUpdating
      ensures app.facts == (if updated.Ok? then PatchById(old(app.facts), fact.id, updated.value) else old(app.facts))
      ensures app.showForm == old(app.showForm) && app.isLoading == old(app.isLoading)
      ensures app.currCat == old(app.currCat) && app.alerts == old(app.alerts)
    {
      isUpdating := true;
      request := VoteRequest(fact, field);
      isUpdating := false;
      if updated.Ok? {
        app.facts := PatchById(app.facts, fact.id, updated.value);
      }
    }
  }

  /**
   * Two category changes whose fetches resolve in the opposite order: the
   * "science" rows, arriving last, are what the page shows although
   * "finance" is the current category, so the page lists rows outside the
   * category it shows as chosen; and the loading flag was already
   * cleared while the "science" fetch was still pending.
   */
  method StaleFetchScenario(science: seq<Fact>, finance: seq<Fact>)
    returns (shown: seq<Fact>, current: string, loadingBetween: bool)
    requires science != [] && Answers(QueryFor("science"), science)
    ensures shown == science
    ensures current == "finance"
    ensures !loadingBetween
    ensures exists i :: 0 <= i < |shown| && shown[i].category != current
  {
    var page := new App();
    var first := page.SelectCategory("science");
    var second := page.SelectCategory("finance");
    page.EndGetFacts(Ok(finance));
    loadingBetween := page.isLoading;
    page.EndGetFacts(Ok(science));
    shown, current := page.facts, page.currCat;
    assert Matches(QueryFor("science"), shown[0]);
  }
}
