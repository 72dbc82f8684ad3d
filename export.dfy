/** The exporter: describes every root collection and files the descriptions
    by collection id. The project id and the export timestamp of the report
    are left out of this model. */
module Export {
  import opened Wrappers
  import opened Store
  import opened Structures
  import opened Sampler
  import opened Describe

  /** The report's `collections` entry: root collection id to its structure. */
  datatype Report = Report(collections: map<string, Structure>)

  /** What `export_structure` returns, or the store error that aborts it. */
  function ExportShape(db: Database, cfg: Config): Result<Report, StoreError> {
    match ShapesById(db.collections, map[], cfg)
    case Err(e) => Err(e)
    case Ok(collections) => Ok(Report(collections))
  }

  /** `export_structure`: the loop over the root collections. */
  method ExportStructure(db: Database, cfg: Config) returns (r: Result<Report, StoreError>)
    ensures r == ExportShape(db, cfg)
  {
    var roots := db.collections;
    var collections := map[];
    var i := 0;
    while i < |roots|
      invariant i <= |roots|
      invariant ShapesById(roots[i..], collections, cfg) == ShapesById(roots, map[], cfg)
    {
      var shape, _ := DescribeCollection(roots[i], cfg);
      if shape.Err? {
        return Err(shape.error);
      }
      assert roots[i..][1..] == roots[i + 1..];
      collections := collections[roots[i].id := shape.value];
      i := i + 1;
    }
    r := Ok(Report(collections));
  }

  /** The report names exactly the root collections. */
  lemma ExportCollectionNames(db: Database, cfg: Config)
    requires ExportShape(db, cfg).Ok?
    ensures ExportShape(db, cfg).value.collections.Keys == Ids(db.collections)
  {
    ShapesByIdKeys(db.collections, map[], cfg);
  }

  /** With distinct root ids, each root collection's description is filed
      under its id. */
  lemma ExportEntries(db: Database, cfg: Config)
    requires forall i, j | 0 <= i < j < |db.collections| :: db.collections[i].id != db.collections[j].id
    requires ExportShape(db, cfg).Ok?
    ensures forall i | 0 <= i < |db.collections| ::
      && CollectionShape(db.collections[i], cfg).Ok?
      && db.collections[i].id in ExportShape(db, cfg).value.collections
      && ExportShape(db, cfg).value.collections[db.collections[i].id] == CollectionShape(db.collections[i], cfg).value
  {
    ShapesByIdEntries(db.collections, map[], cfg);
  }

  /** No partial report: the export fails exactly when the description of
      some root collection fails, and then with the error of the first root
      collection, in listing order, whose description fails. */
  lemma ExportAborts(db: Database, cfg: Config)
    ensures ExportShape(db, cfg).Err? <==>
      exists i | 0 <= i < |db.collections| :: CollectionShape(db.collections[i], cfg).Err?
    ensures ExportShape(db, cfg).Err? ==>
      exists i | 0 <= i < |db.collections| ::
        && CollectionShape(db.collections[i], cfg) == Err(ExportShape(db, cfg).error)
        && forall j | 0 <= j < i :: CollectionShape(db.collections[j], cfg).Ok?
  {
    ShapesByIdFails(db.collections, map[], cfg);
  }

  // The example database: one root collection "users"; one user with a
  // field `name` and a sub-collection "orders" holding one document with a
  // field `total`; another user with fields `name` and `age`.
  const Unbounded := Config(0, DefaultOrderField)
  const TotalDoc := Document(Some(map["total" := Value("int")]), [])
  const Orders := Collection("orders", [TotalDoc], map[])
  const FirstUser := Document(Some(map["name" := Value("str")]), [Orders])
  const SecondUser := Document(Some(map["name" := Value("str"), "age" := Value("int")]), [])
  const Users := Collection("users", [FirstUser, SecondUser], map[])

  const OrdersShape := Structure(Some(map["total" := "int"]), Absent)
  const UsersShape := Structure(Some(map["name" := "str", "age" := "int"]), Present(map["orders" := OrdersShape]))

  lemma OrdersExample()
    ensures CollectionShape(Orders, Unbounded) == Ok(OrdersShape)
  {
    var totalTags := map["total" := "int"];
    assert TypeTags(map["total" := Value("int")]) == totalTags;
    assert DocumentShape(TotalDoc, Unbounded) == Ok(OrdersShape);
    assert Merge(Initial, OrdersShape) == Structure(Some(totalTags), Present(map[])) by {
      assert totalTags + map[] == totalTags;
    }
    assert Sample(Orders, Unbounded) == Ok([TotalDoc]);
    assert FoldShapes(Orders, [TotalDoc], Initial, Unbounded) == Ok(Structure(Some(totalTags), Present(map[]))) by {
      assert [TotalDoc][1..] == [];
    }
    assert Strip(Structure(Some(totalTags), Present(map[]))) == OrdersShape by {
      assert "total" in totalTags;
    }
  }

  lemma UserExamples()
    ensures DocumentShape(FirstUser, Unbounded) ==
      Ok(Structure(Some(map["name" := "str"]), Present(map["orders" := OrdersShape])))
    ensures DocumentShape(SecondUser, Unbounded) ==
      Ok(Structure(Some(map["name" := "str", "age" := "int"]), Absent))
  {
    OrdersExample();
    assert ShapesById([Orders], map[], Unbounded) == Ok(map["orders" := OrdersShape]) by {
      assert [Orders][1..] == [];
    }
    assert "orders" in map["orders" := OrdersShape];
    assert TypeTags(map["name" := Value("str")]) == map["name" := "str"];
    assert TypeTags(map["name" := Value("str"), "age" := Value("int")]) == map["name" := "str", "age" := "int"];
  }

  lemma UsersCollectionExample()
    ensures CollectionShape(Users, Unbounded) == Ok(UsersShape)
  {
    UserExamples();
    var firstShape := Structure(Some(map["name" := "str"]), Present(map["orders" := OrdersShape]));
    var secondShape := Structure(Some(map["name" := "str", "age" := "int"]), Absent);
    assert MergedSubs(map[], firstShape) == map["orders" := OrdersShape];
    assert Merge(Initial, firstShape) == firstShape by {
      assert map["name" := "str"] + map[] == map["name" := "str"];
    }
    assert Merge(firstShape, secondShape) == UsersShape by {
      assert map["name" := "str", "age" := "int"] + map["name" := "str"] == map["name" := "str", "age" := "int"];
    }
    assert Sample(Users, Unbounded) == Ok([FirstUser, SecondUser]);
    assert FirstUser in Users.stream && SecondUser in Users.stream;
    assert FoldShapes(Users, [SecondUser], firstShape, Unbounded) == Ok(UsersShape) by {
      assert [SecondUser][1..] == [];
    }
    assert FoldShapes(Users, [FirstUser, SecondUser], Initial, Unbounded) == Ok(UsersShape) by {
      assert [FirstUser, SecondUser][1..] == [SecondUser];
    }
    assert Strip(UsersShape) == UsersShape by {
      assert "name" in FieldsOf(UsersShape) && "orders" in SubsOf(UsersShape);
    }
  }

  /** The example database, sampled without a limit: the report has `name`
      and `age` for "users" and `total` for its "orders". */
  lemma UsersExample()
    ensures ExportShape(Database([Users]), Unbounded) == Ok(Report(map["users" := UsersShape]))
  {
    UsersCollectionExample();
    assert ShapesById([Users], map[], Unbounded) == Ok(map["users" := UsersShape]) by {
      assert [Users][1..] == [];
    }
  }

  // Two users without fields, each with a sub-collection "orders" holding
  // one document without fields.
  const EmptyOrder := Document(Some(map[]), [])
  const EmptyOrders := Collection("orders", [EmptyOrder], map[])
  const PlainUser := Document(Some(map[]), [EmptyOrders])
  const PlainUsers := Collection("users", [PlainUser, PlainUser], map[])

  lemma EmptyOrdersExample()
    ensures CollectionShape(EmptyOrders, Unbounded) == Ok(Empty)
    ensures DocumentShape(PlainUser, Unbounded) == Ok(Structure(Some(map[]), Present(map["orders" := Empty])))
  {
    assert DocumentShape(EmptyOrder, Unbounded) == Ok(Structure(Some(map[]), Absent));
    assert Sample(EmptyOrders, Unbounded) == Ok([EmptyOrder]);
    assert FoldShapes(EmptyOrders, [EmptyOrder], Initial, Unbounded) == Ok(Structure(Some(map[]), Present(map[]))) by {
      assert [EmptyOrder][1..] == [];
    }
    assert ShapesById([EmptyOrders], map[], Unbounded) == Ok(map["orders" := Empty]) by {
      assert [EmptyOrders][1..] == [];
    }
    assert "orders" in map["orders" := Empty];
  }

  /** The description of the two users has no `fields` entry at its top, but
      its "orders" entry holds an empty `fields` dictionary: merging the second
      user's "orders" description (which has no `fields` key) into the first
      one's adds the key, and the stripping at the end of describing "users"
      reaches only the top. */
  lemma NestedEmptyFields()
    ensures CollectionShape(PlainUsers, Unbounded) ==
      Ok(Structure(None, Present(map["orders" := Structure(Some(map[]), Absent)])))
  {
    EmptyOrdersExample();
    var userShape := Structure(Some(map[]), Present(map["orders" := Empty]));
    assert MergedSubs(map[], userShape) == map["orders" := Empty];
    assert Merge(Initial, userShape) == userShape;
    var twice := Structure(Some(map[]), Present(map["orders" := Structure(Some(map[]), Absent)]));
    assert MergedSubs(map["orders" := Empty], userShape) == map["orders" := Merge(Empty, Empty)];
    assert Merge(userShape, userShape) == twice;
    assert Sample(PlainUsers, Unbounded) == Ok([PlainUser, PlainUser]);
    assert PlainUser in PlainUsers.stream;
    assert FoldShapes(PlainUsers, [PlainUser], userShape, Unbounded) == Ok(twice) by {
      assert [PlainUser][1..] == [];
    }
    assert FoldShapes(PlainUsers, [PlainUser, PlainUser], Initial, Unbounded) == Ok(twice) by {
      assert [PlainUser, PlainUser][1..] == [PlainUser];
    }
  }
}
