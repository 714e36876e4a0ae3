/**
 * The collection controller: the in-memory list of dogs, the busy flag and
 * the filter state, with the reload and the three mutations that go through
 * the remote store.
 *
 * The store is abstract. Each operation receives, as parameters, the answers
 * the store gives to the calls it makes, so every outcome (acknowledged,
 * unsuccessful, thrown) is covered by one contract. Two ghost logs record
 * what the controller sends to the store and which toasts it raises.
 */
module Controller {
  import opened Wrappers
  import opened Dogs
  import opened DogFilter

  /** A resolved store call: `{ success, data }`, where `data` may be absent. */
  datatype Response<T> = Response(success: bool, data: Option<T>)

  /** The outcome of one awaited store call: a response, or a thrown error. */
  datatype Call<T> = Returned(response: Response<T>) | Threw(error: string)

  /** The store call resolved with `success` set. */
  predicate Acknowledged<T>(c: Call<T>) {
    c.Returned? && c.response.success
  }

  /** A call made to the store: `Dog.list()`, `Dog.create(record)`, `Dog.update(id, record)`. */
  datatype Request = ListRequest | CreateRequest(record: Dog) | UpdateRequest(id: Option<string>, record: Dog)

  /** A toast: `message.success(text)` or `message.error(text)`. */
  datatype Notice = SuccessNotice(text: string) | ErrorNotice(text: string)

  /** The collection after a reload whose list call had outcome `listed`. */
  function Reloaded(current: seq<Dog>, listed: Call<seq<Dog>>): seq<Dog> {
    if Acknowledged(listed) then listed.response.data.GetOr([]) else current
  }

  /** The toasts a reload raises. */
  function ReloadNotices(listed: Call<seq<Dog>>): seq<Notice> {
    if listed.Threw? then [ErrorNotice("Failed to load dogs")] else []
  }

  /** What every record sent to `create` looks like: no identifier, not a favourite, named and bred. */
  predicate NewRecord(d: Dog) {
    d.id == None && d.isFavorite == Some(false) && d.name.Some? && d.breed.Some?
  }

  /** Both record builders used with `create` produce new records. */
  lemma CreatedRecordsAreNew(v: DogForm, t: Template, draw: nat)
    requires FormValid(v) && draw < 8
    ensures NewRecord(FromForm(v)) && NewRecord(FromTemplate(t, draw))
  {
  }

  class DogApp {
    var dogs: seq<Dog>
    var loading: bool
    var searchTerm: string
    var sizeFilter: string
    /** Every call made to the store, oldest first. */
    ghost var requests: seq<Request>
    /** Every toast raised, oldest first. */
    ghost var notices: seq<Notice>

    /**
     * Between operations the controller is idle, and no record it ever sent
     * to `create` carried an identifier or a set favourite flag.
     */
    ghost predicate Valid()
      reads this
    {
      && !loading
      && forall i :: 0 <= i < |requests| && requests[i].CreateRequest? ==> NewRecord(requests[i].record)
    }

    /** The initial state: no dogs, not loading, empty search, all sizes. */
    constructor ()
      ensures Valid()
      ensures dogs == [] && searchTerm == "" && sizeFilter == "all"
      ensures requests == [] && notices == []
    {
      dogs := [];
      loading := false;
      searchTerm := "";
      sizeFilter := "all";
      requests := [];
      notices := [];
    }

    /** `filteredDogs`: the dogs the current filter state shows, in collection order. */
    function View(): (r: seq<Dog>)
      reads this
      ensures forall d :: d in r <==> d in dogs && Keep(d, searchTerm, sizeFilter)
      ensures |r| <= |dogs|
    {
      assert forall d :: d in Filtered(dogs, searchTerm, sizeFilter) <==> d in dogs && Keep(d, searchTerm, sizeFilter) by {
        forall d
          ensures d in Filtered(dogs, searchTerm, sizeFilter) <==> d in dogs && Keep(d, searchTerm, sizeFilter)
        {
          FilteredMembership(dogs, searchTerm, sizeFilter, d);
        }
      }
      Filtered(dogs, searchTerm, sizeFilter)
    }

    method SetSearchTerm(q: string)
      requires Valid()
      modifies this`searchTerm
      ensures Valid() && searchTerm == q
    {
      searchTerm := q;
    }

    method SetSizeFilter(s: string)
      requires Valid()
      modifies this`sizeFilter
      ensures Valid() && sizeFilter == s
    {
      sizeFilter := s;
    }

    /**
     * `loadDogs`: an acknowledged list replaces the collection with its data
     * (or with the empty list when it carries none); an unsuccessful response
     * or a thrown error keeps the previous snapshot. The busy flag is set for
     * the call and cleared on every path.
     */
    method LoadDogs(listed: Call<seq<Dog>>)
      requires Valid()
      modifies this
      ensures Valid()
      ensures Acknowledged(listed) && listed.response.data.Some? ==> dogs == listed.response.data.value
      ensures Acknowledged(listed) && listed.response.data.None? ==> dogs == []
      ensures !Acknowledged(listed) ==> dogs == old(dogs)
      ensures searchTerm == old(searchTerm) && sizeFilter == old(sizeFilter)
      ensures requests == old(requests) + [ListRequest]
      ensures notices == old(notices) + ReloadNotices(listed)
    {
      loading := true;
      requests := requests + [ListRequest];
      match listed {
        case Returned(response) =>
          if response.success {
            dogs := response.data.GetOr([]);
          }
        case Threw(_) =>
          notices := notices + [ErrorNotice("Failed to load dogs")];
      }
      loading := false;
    }

    /**
     * `handleAddDog`: sends the form values with `isFavorite` forced to
     * false, and reloads only when the store acknowledges. The collection
     * is never patched locally.
     */
    method HandleAddDog(values: DogForm, created: Call<Dog>, listed: Call<seq<Dog>>)
      requires Valid() && FormValid(values)
      modifies this
      ensures Valid()
      ensures dogs == if Acknowledged(created) then Reloaded(old(dogs), listed) else old(dogs)
      ensures searchTerm == old(searchTerm) && sizeFilter == old(sizeFilter)
      ensures requests == old(requests) + [CreateRequest(FromForm(values))]
                          + (if Acknowledged(created) then [ListRequest] else [])
      ensures notices == old(notices)
                         + (if Acknowledged(created) then [SuccessNotice("Dog added successfully!")] + ReloadNotices(listed)
                            else if created.Threw? then [ErrorNotice("Failed to add dog")]
                            else [])
    {
      var record := FromForm(values);
      requests := requests + [CreateRequest(record)];
      match created
      case Returned(response) =>
        if response.success {
          notices := notices + [SuccessNotice("Dog added successfully!")];
          LoadDogs(listed);
        }
      case Threw(_) =>
        notices := notices + [ErrorNotice("Failed to add dog")];
    }

    /**
     * `toggleFavorite`: sends `dog` back under its own identifier with the
     * favourite flag inverted, and reloads only when the store acknowledges.
     */
    method ToggleFavorite(dog: Dog, updated: Call<Dog>, listed: Call<seq<Dog>>)
      requires Valid()
      modifies this
      ensures Valid()
      ensures dogs == if Acknowledged(updated) then Reloaded(old(dogs), listed) else old(dogs)
      ensures searchTerm == old(searchTerm) && sizeFilter == old(sizeFilter)
      ensures requests == old(requests) + [UpdateRequest(dog.id, Toggled(dog))]
                          + (if Acknowledged(updated) then [ListRequest] else [])
      ensures notices == old(notices)
                         + (if Acknowledged(updated) then ReloadNotices(listed)
                            else if updated.Threw? then [ErrorNotice("Failed to update favorite status")]
                            else [])
    {
      requests := requests + [UpdateRequest(dog.id, Toggled(dog))];
      match updated
      case Returned(response) =>
        if response.success {
          LoadDogs(listed);
        }
      case Threw(_) =>
        notices := notices + [ErrorNotice("Failed to update favorite status")];
    }

    /**
     * `addPopularDog`: sends the record built from template `t`, whose age is
     * `draw + 1`, and reloads only when the store acknowledges.
     */
    method AddPopularDog(t: Template, draw: nat, created: Call<Dog>, listed: Call<seq<Dog>>)
      requires Valid() && draw < 8
      modifies this
      ensures Valid()
      ensures dogs == if Acknowledged(created) then Reloaded(old(dogs), listed) else old(dogs)
      ensures searchTerm == old(searchTerm) && sizeFilter == old(sizeFilter)
      ensures requests == old(requests) + [CreateRequest(FromTemplate(t, draw))]
                          + (if Acknowledged(created) then [ListRequest] else [])
      ensures notices == old(notices)
                         + (if Acknowledged(created) then [SuccessNotice(t.breed + " added!")] + ReloadNotices(listed)
                            else if created.Threw? then [ErrorNotice("Failed to add dog")]
                            else [])
    {
      var record := FromTemplate(t, draw);
      requests := requests + [CreateRequest(record)];
      match created
      case Returned(response) =>
        if response.success {
          notices := notices + [SuccessNotice(t.breed + " added!")];
          LoadDogs(listed);
        }
      case Threw(_) =>
        notices := notices + [ErrorNotice("Failed to add dog")];
    }
  }

  /**
   * A client run: load one dog, add a suggested poodle, then fail a toggle.
   * Only the contracts above are used.
   */
  method PoodleScenario()
  {
    var app := new DogApp();
    var rex := Dog(Some("1"), Some("Rex"), Some("Beagle"), None, Some("medium"), None, None, None, Some(false));
    app.LoadDogs(Returned(Response(true, Some([rex]))));
    assert app.dogs == [rex];

    var poodle := PopularBreeds[5];
    assert poodle.breed == "Poodle";
    assert "Beautiful " + poodle.breed == "Beautiful Poodle";
    var stored := FromTemplate(poodle, 2).(id := Some("2"));
    app.AddPopularDog(poodle, 2, Returned(Response(true, Some(stored))), Returned(Response(true, Some([rex, stored]))));
    assert |app.dogs| == 2 && app.dogs[1].name == Some("Beautiful Poodle");
    assert app.dogs[1].isFavorite == Some(false) && 1 <= app.dogs[1].age.value <= 8;

    app.ToggleFavorite(rex, Threw("network error"), Returned(Response(true, Some([]))));
    assert app.dogs == [rex, stored];
    assert app.notices[|app.notices| - 1] == ErrorNotice("Failed to update favorite status");
  }
}
