/**
 * The records the controller handles: stored dogs, the add-dog form's values,
 * the static table of suggested breeds, the size colour map, and the three
 * record builders used before a record is sent to the store.
 */
module Dogs {
  import opened Wrappers

  /**
   * A stored dog as the store returns it. Every property may be absent
   * (`undefined`); `id` is the store-assigned `_id`.
   */
  datatype Dog = Dog(
    id: Option<string>,
    name: Option<string>,
    breed: Option<string>,
    age: Option<int>,
    size: Option<string>,
    temperament: Option<string>,
    imageUrl: Option<string>,
    description: Option<string>,
    isFavorite: Option<bool>)

  /** The values the add-dog form submits: one property per form field. */
  datatype DogForm = DogForm(
    name: Option<string>,
    breed: Option<string>,
    age: Option<int>,
    size: Option<string>,
    temperament: Option<string>,
    imageUrl: Option<string>,
    description: Option<string>)

  /** One entry of the suggested-breeds table. */
  datatype Template = Template(breed: string, size: string, temperament: string, imageUrl: string)

  /** The size classifications the interface offers. */
  predicate IsKnownSize(s: string) {
    s == "small" || s == "medium" || s == "large"
  }

  /** JavaScript truthiness of an optional flag: an absent flag is falsy. */
  predicate Truthy(b: Option<bool>) {
    b == Some(true)
  }

  /** The form's `required` rules: a name and a breed, both non-empty. */
  predicate FormValid(v: DogForm) {
    v.name.Some? && v.name.value != "" && v.breed.Some? && v.breed.value != ""
  }

  /** The suggested breeds offered when the collection is empty. */
  const PopularBreeds: seq<Template> := [
    Template("Golden Retriever", "large", "Friendly, Intelligent, Devoted",
             "https://images.unsplash.com/photo-1552053831-71594a27632d?w=300&h=200&fit=crop"),
    Template("Labrador Retriever", "large", "Outgoing, Active, Friendly",
             "https://images.unsplash.com/photo-1518717758536-85ae29035b6d?w=300&h=200&fit=crop"),
    Template("German Shepherd", "large", "Confident, Courageous, Smart",
             "https://images.unsplash.com/photo-1589941013453-ec89f33b5e95?w=300&h=200&fit=crop"),
    Template("French Bulldog", "small", "Adaptable, Playful, Smart",
             "https://images.unsplash.com/photo-1583337130417-3346a1be7dee?w=300&h=200&fit=crop"),
    Template("Beagle", "medium", "Friendly, Curious, Merry",
             "https://images.unsplash.com/photo-1551717743-49959800b1f6?w=300&h=200&fit=crop"),
    Template("Poodle", "medium", "Active, Alert, Intelligent",
             "https://images.unsplash.com/photo-1616190264687-b7ebf7aa958a?w=300&h=200&fit=crop")
  ]

  /** The tag colour for a size; anything but the three known sizes gets "default". */
  function SizeColor(size: Option<string>): (r: string)
    ensures r == "blue" <==> size == Some("small")
    ensures r == "orange" <==> size == Some("medium")
    ensures r == "red" <==> size == Some("large")
    ensures r == "default" <==> !(size.Some? && IsKnownSize(size.value))
  {
    match size
    case Some("small") => "blue"
    case Some("medium") => "orange"
    case Some("large") => "red"
    case _ => "default"
  }

  /** Every suggested breed has a known size, so its tag gets a real colour. */
  lemma PopularBreedsWellFormed()
    ensures |PopularBreeds| == 6
    ensures forall t :: t in PopularBreeds ==> IsKnownSize(t.size) && t.breed != ""
    ensures forall t :: t in PopularBreeds ==> SizeColor(Some(t.size)) != "default"
  {
  }

  /**
   * The record `handleAddDog` sends: the form values spread, then
   * `isFavorite` forced to false. The store assigns the identifier.
   */
  function FromForm(v: DogForm): (r: Dog)
    ensures r.isFavorite == Some(false) && r.id == None
    ensures r.name == v.name && r.breed == v.breed && r.age == v.age && r.size == v.size
    ensures r.temperament == v.temperament && r.imageUrl == v.imageUrl && r.description == v.description
  {
    Dog(None, v.name, v.breed, v.age, v.size, v.temperament, v.imageUrl, v.description, Some(false))
  }

  /**
   * The record `addPopularDog` sends for template `t`. `draw` stands for
   * `Math.floor(Math.random() * 8)`, an integer in [0, 8).
   */
  function FromTemplate(t: Template, draw: nat): (r: Dog)
    requires draw < 8
    ensures r.name == Some("Beautiful " + t.breed)
    ensures r.description == Some("A wonderful " + t.breed + " looking for a loving home.")
    ensures r.breed == Some(t.breed) && r.size == Some(t.size)
    ensures r.temperament == Some(t.temperament) && r.imageUrl == Some(t.imageUrl)
    ensures r.age.Some? && 1 <= r.age.value <= 8
    ensures r.isFavorite == Some(false) && r.id == None
  {
    Dog(None, Some("Beautiful " + t.breed), Some(t.breed), Some(draw + 1), Some(t.size),
        Some(t.temperament), Some(t.imageUrl),
        Some("A wonderful " + t.breed + " looking for a loving home."), Some(false))
  }

  /** The record `toggleFavorite` sends: `dog` spread, then `isFavorite: !dog.isFavorite`. */
  function Toggled(d: Dog): (r: Dog)
    ensures Truthy(r.isFavorite) == !Truthy(d.isFavorite) && r.isFavorite.Some?
    ensures r.id == d.id && r.name == d.name && r.breed == d.breed && r.age == d.age
    ensures r.size == d.size && r.temperament == d.temperament
    ensures r.imageUrl == d.imageUrl && r.description == d.description
  {
    d.(isFavorite := Some(!Truthy(d.isFavorite)))
  }

  /**
   * Toggling twice restores the favourite flag's truth value. The record
   * comes back identical exactly when the flag was present: an absent flag
   * comes back as an explicit `false`.
   */
  lemma ToggleTwice(d: Dog)
    ensures Truthy(Toggled(Toggled(d)).isFavorite) == Truthy(d.isFavorite)
    ensures Toggled(Toggled(d)) == d <==> d.isFavorite.Some?
  {
    match d.isFavorite
    case None =>
      assert Toggled(Toggled(d)).isFavorite == Some(false);
    case Some(b) =>
      assert Toggled(Toggled(d)) == d.(isFavorite := Some(b));
  }
}
