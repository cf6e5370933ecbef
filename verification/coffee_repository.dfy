/**
 * The catalog repository: turning the decoded asset into the store's
 * catalog format. Reading and decoding the asset are I/O and are represented
 * by the `loaded` parameter, `None` standing for a missing file, a read error
 * or a decoding error.
 */
module CoffeeRepository {
  import opened Wrappers
  import opened Text
  import opened Models

  /** The id derived from a title: every space becomes '_', then the result is lower-cased. */
  function Slug(title: string): string
  {
    Lowercase(ReplaceChar(title, ' ', '_'))
  }

  /** The conversion of one catalog entry; a missing category id becomes "". */
  function ToCoffee(item: CoffeeItem): Coffee
  {
    Coffee(
      id := Slug(item.title),
      categoryId := OrElse(item.categoryId, ""),
      description := item.description,
      extra := item.extra,
      picUrl := item.picUrl,
      price := item.price,
      rating := item.rating,
      title := item.title)
  }

  /** Element-wise conversion of a list of catalog entries, order kept. */
  function ToCoffees(items: seq<CoffeeItem>): (r: seq<Coffee>)
    ensures |r| == |items|
    ensures forall k :: 0 <= k < |items| ==> r[k] == ToCoffee(items[k])
  {
    if |items| == 0 then [] else [ToCoffee(items[0])] + ToCoffees(items[1..])
  }

  /** `getAllCoffees`: the converted full item list, or nothing when loading failed. */
  function GetAllCoffees(loaded: Option<CoffeeDatabase>): (r: seq<Coffee>)
    ensures loaded.None? ==> r == []
    ensures loaded.Some? ==> |r| == |loaded.value.Items|
    ensures loaded.Some? ==> forall k :: 0 <= k < |r| ==> r[k] == ToCoffee(loaded.value.Items[k])
  {
    match loaded
    case None => []
    case Some(db) => ToCoffees(db.Items)
  }

  /**
   * `getCoffeeData`: banners and categories passed through, both item lists
   * converted; four empty lists when loading failed.
   */
  function GetCoffeeData(loaded: Option<CoffeeDatabase>): (r: CoffeeData)
    ensures loaded.None? ==> r == EmptyCoffeeData()
    ensures loaded.Some? ==> r.banners == loaded.value.Banner && r.categories == loaded.value.Category
    ensures loaded.Some? ==> |r.popular| == |loaded.value.Popular|
    ensures loaded.Some? ==> forall k :: 0 <= k < |r.popular| ==> r.popular[k] == ToCoffee(loaded.value.Popular[k])
    ensures loaded.Some? ==> |r.coffee| == |loaded.value.Items|
    ensures loaded.Some? ==> forall k :: 0 <= k < |r.coffee| ==> r.coffee[k] == ToCoffee(loaded.value.Items[k])
  {
    match loaded
    case None => CoffeeData(banners := [], categories := [], coffee := [], popular := [])
    case Some(db) =>
      CoffeeData(
        banners := db.Banner,
        categories := db.Category,
        popular := ToCoffees(db.Popular),
        coffee := ToCoffees(db.Items))
  }

  /** Both entry points convert the full item list identically. */
  lemma GetCoffeeDataAgreesWithGetAllCoffees(loaded: Option<CoffeeDatabase>)
    ensures GetCoffeeData(loaded).coffee == GetAllCoffees(loaded)
  {
  }

  /** Conversion distributes over concatenation, so it keeps the order of the list. */
  lemma {:induction false} ToCoffeesAppend(a: seq<CoffeeItem>, b: seq<CoffeeItem>)
    ensures ToCoffees(a + b) == ToCoffees(a) + ToCoffees(b)
  {
    if |a| == 0 {
      assert a + b == b;
    } else {
      assert (a + b)[1..] == a[1..] + b;
      ToCoffeesAppend(a[1..], b);
    }
  }

  /** A derived id never contains a space and has exactly one character per title character. */
  lemma SlugShape(title: string)
    ensures ' ' !in Slug(title)
    ensures |Slug(title)| == |title|
  {
    var r := Slug(title);
    forall k | 0 <= k < |r| ensures r[k] != ' ' {
      assert r[k] == LowerChar(ReplaceChar(title, ' ', '_')[k]);
    }
  }

  /** A derived id contains no upper-case ASCII letter. */
  lemma SlugIsLowerCase(title: string)
    ensures forall k :: 0 <= k < |Slug(title)| ==> !('A' <= Slug(title)[k] <= 'Z')
  {
  }

  /** Deriving an id from a derived id returns it unchanged. */
  lemma SlugIdempotent(title: string)
    ensures Slug(Slug(title)) == Slug(title)
  {
    var s := Slug(title);
    SlugShape(title);
    SlugShape(s);
    forall k | 0 <= k < |s| ensures Slug(s)[k] == s[k] {
      assert ReplaceChar(s, ' ', '_')[k] == s[k];
    }
  }

  /** Titles that differ only in ASCII letter case, or in ' ' versus '_', get the same id. */
  lemma SlugCollisions(title: string)
    ensures Slug(Lowercase(title)) == Slug(title)
    ensures Slug(ReplaceChar(title, ' ', '_')) == Slug(title)
  {
    var lowered := Lowercase(title);
    forall k | 0 <= k < |title| ensures Slug(lowered)[k] == Slug(title)[k] {
      var c := title[k];
      assert Slug(lowered)[k] == LowerChar(if LowerChar(c) == ' ' then '_' else LowerChar(c));
      assert Slug(title)[k] == LowerChar(if c == ' ' then '_' else c);
    }
  }

  /**
   * The conversion keeps every field except the distinction between a missing
   * category id and an empty one: two entries convert to the same `Coffee`
   * exactly when they agree on every other field and on the category id read
   * with "" for a missing one.
   */
  lemma ToCoffeeLosesOnlyMissingCategory(a: CoffeeItem, b: CoffeeItem)
    ensures ToCoffee(a) == ToCoffee(b) <==>
      && a.title == b.title
      && OrElse(a.categoryId, "") == OrElse(b.categoryId, "")
      && a.description == b.description && a.extra == b.extra
      && a.picUrl == b.picUrl && a.price == b.price && a.rating == b.rating
  {
  }

  /** The no-argument catalog entry converts to the default `Coffee`. */
  lemma NoArgItemConvertsToDefaultCoffee()
    ensures ToCoffee(NoArgCoffeeItem()) == DefaultCoffee()
  {
  }
}
