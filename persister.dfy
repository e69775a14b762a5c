/**
 * The recipe persister: a recipe detail object is projected to a stored
 * record and inserted when no record has its id; existing records are never
 * updated.
 */
module RecipePersister {
  import opened Wrappers

  datatype Flavors = Flavors(
    salty: Option<real>, sour: Option<real>, sweet: Option<real>,
    bitter: Option<real>, piquant: Option<real>, meaty: Option<real>)

  datatype Attributes = Attributes(cuisine: Option<seq<string>>, course: Option<seq<string>>, holiday: Option<seq<string>>)

  /** A provider recipe detail object; absent fields are None. */
  datatype RecipeDetail = RecipeDetail(
    id: string,
    recipeName: string,
    sourceDisplayName: string,
    smallImageUrls: Option<seq<string>>,
    mediumImageUrls: Option<seq<string>>,
    largeImageUrls: Option<seq<string>>,
    attributes: Option<Attributes>,
    totalTimeInSeconds: int,
    ingredients: seq<string>,
    rating: int,
    flavors: Option<Flavors>)

  /** A stored recipe row. */
  datatype RecipeRecord = RecipeRecord(
    id: string,
    recipeName: string,
    sourceDisplayName: string,
    smallImgUrl: Option<string>,
    mediumImgUrl: Option<string>,
    largeImgUrl: Option<string>,
    cuisine: Option<seq<string>>,
    course: Option<seq<string>>,
    holiday: Option<seq<string>>,
    totalTimeInSeconds: int,
    ingredients: seq<string>,
    rating: int,
    salty: Option<real>, sour: Option<real>, sweet: Option<real>,
    bitter: Option<real>, piquant: Option<real>, meaty: Option<real>)

  /** `urls && urls[0]`: the first URL of a present list; nothing for an absent or empty one. */
  function FirstUrl(urls: Option<seq<string>>): (r: Option<string>)
    ensures r.Some? <==> urls.Some? && |urls.value| > 0
    ensures r.Some? ==> r.value == urls.value[0]
  {
    match urls
    case None => None
    case Some(list) => if |list| > 0 then Some(list[0]) else None
  }

  /**
   * The record `saveRecipe` builds. Reading `recipe.attributes.cuisine` throws
   * when `attributes` is absent, so then no record is built.
   */
  function Project(d: RecipeDetail): (r: Option<RecipeRecord>)
    ensures r.Some? <==> d.attributes.Some?
    ensures r.Some? ==> r.value.id == d.id
  {
    match d.attributes
    case None => None
    case Some(attrs) =>
      var f := d.flavors;
      Some(RecipeRecord(
        d.id, d.recipeName, d.sourceDisplayName,
        FirstUrl(d.smallImageUrls), FirstUrl(d.mediumImageUrls), FirstUrl(d.largeImageUrls),
        attrs.cuisine, attrs.course, attrs.holiday,
        d.totalTimeInSeconds, d.ingredients, d.rating,
        if f.Some? then f.value.salty else None,
        if f.Some? then f.value.sour else None,
        if f.Some? then f.value.sweet else None,
        if f.Some? then f.value.bitter else None,
        if f.Some? then f.value.piquant else None,
        if f.Some? then f.value.meaty else None))
  }

  /** The record carries the detail's fields, and flavour values only when `flavors` is present. */
  lemma ProjectFields(d: RecipeDetail)
    requires d.attributes.Some?
    ensures var r := Project(d).value;
            && r.recipeName == d.recipeName && r.sourceDisplayName == d.sourceDisplayName
            && r.smallImgUrl == FirstUrl(d.smallImageUrls)
            && r.mediumImgUrl == FirstUrl(d.mediumImageUrls)
            && r.largeImgUrl == FirstUrl(d.largeImageUrls)
            && r.cuisine == d.attributes.value.cuisine && r.course == d.attributes.value.course
            && r.holiday == d.attributes.value.holiday
            && r.totalTimeInSeconds == d.totalTimeInSeconds && r.ingredients == d.ingredients
            && r.rating == d.rating
            && (d.flavors.None? ==>
                  r.salty.None? && r.sour.None? && r.sweet.None?
                  && r.bitter.None? && r.piquant.None? && r.meaty.None?)
            && (d.flavors.Some? ==>
                  var f := d.flavors.value;
                  r.salty == f.salty && r.sour == f.sour && r.sweet == f.sweet
                  && r.bitter == f.bitter && r.piquant == f.piquant && r.meaty == f.meaty)
  {
  }

  /** Every record is stored under its own id: one record per id. */
  ghost predicate KeyedById(records: map<string, RecipeRecord>) {
    forall k :: k in records ==> records[k].id == k
  }

  /** The table after `saveRecipe(d)`: insert when the id is absent, otherwise leave it. */
  function Saved(records: map<string, RecipeRecord>, d: RecipeDetail): (r: map<string, RecipeRecord>)
    ensures forall k :: k in records ==> k in r && r[k] == records[k]
    ensures r.Keys <= records.Keys + {d.id}
  {
    if d.id in records then records
    else
      match Project(d)
      case None => records
      case Some(rec) => records[d.id := rec]
  }

  /** An existing id is never updated; a new one gets the projected record; no other id changes. */
  lemma SavedInsertsIfAbsent(records: map<string, RecipeRecord>, d: RecipeDetail)
    ensures d.id in records ==> Saved(records, d) == records
    ensures d.id !in records && d.attributes.Some? ==>
              Saved(records, d).Keys == records.Keys + {d.id} && Saved(records, d)[d.id] == Project(d).value
    ensures d.id !in records && d.attributes.None? ==> Saved(records, d) == records
    ensures forall k :: k != d.id ==>
              (k in Saved(records, d) <==> k in records) && (k in records ==> Saved(records, d)[k] == records[k])
  {
  }

  /** Saving the same recipe again changes nothing. */
  lemma SavedIdempotent(records: map<string, RecipeRecord>, d: RecipeDetail)
    ensures Saved(Saved(records, d), d) == Saved(records, d)
  {
  }

  /** Saving keeps every record stored under its own id. */
  lemma SavedKeyedById(records: map<string, RecipeRecord>, d: RecipeDetail)
    requires KeyedById(records)
    ensures KeyedById(Saved(records, d))
  {
  }

  /** The recipe table: records by provider id. */
  class RecipeTable {
    var records: map<string, RecipeRecord>

    ghost predicate Valid()
      reads this
    {
      KeyedById(records)
    }

    constructor ()
      ensures Valid() && records == map[]
    {
      records := map[];
    }

    /** `new Recipe({'id': id}).fetch()`: the record with that id, if any. */
    method Find(id: string) returns (found: Option<RecipeRecord>)
      requires Valid()
      ensures found.Some? <==> id in records
      ensures found.Some? ==> found.value == records[id] && found.value.id == id
    {
      if id in records {
        found := Some(records[id]);
      } else {
        found := None;
      }
    }

    /** `saveRecipe`: look the id up; insert the projected record only when none is found. */
    method SaveRecipe(d: RecipeDetail)
      requires Valid()
      modifies this
      ensures Valid()
      ensures records == Saved(old(records), d)
    {
      var found := Find(d.id);
      if found.None? {
        var rec := Project(d);
        if rec.Some? {
          records := records[d.id := rec.value];
        }
      }
    }
  }

  /** Two saves of one recipe leave the table as one save does, with one record for that id. */
  method SaveTwice(table: RecipeTable, d: RecipeDetail)
    requires table.Valid()
    modifies table
    ensures table.Valid()
    ensures table.records == Saved(old(table.records), d)
    ensures d.attributes.Some? ==> d.id in table.records && table.records[d.id].id == d.id
  {
    table.SaveRecipe(d);
    table.SaveRecipe(d);
    SavedIdempotent(old(table.records), d);
  }
}
