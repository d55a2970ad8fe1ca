/**
 * runx/config.py: `dotdict`, a dict whose attributes are its items, and
 * `BaseConfig.to_dict`, which exports the attributes of a config class.
 */
module Config {
  import opened Wrappers
  import opened OrderedDicts

  /** The Python values a config holds. */
  datatype Value =
    | Null
    | Bool(b: bool)
    | Int(i: int)
    | Float(x: real)
    | Str(s: string)
    | List(items: seq<Value>)
    | Tuple(items: seq<Value>)
    | Dict(entries: seq<(string, Value)>)
      /** A function or class: something `callable`, known here by its `__name__`. */
    | Callable(name: string)
      /** A numpy array, known here by what `tolist()` returns for it. */
    | NdArray(asList: seq<Value>)
      /** An attribute the `dotdict` class itself provides (a dict method, `__class__`, ...), by its name. */
    | ClassAttribute(name: string)

  /**
   * The names ordinary attribute lookup finds on a `dotdict` before it falls
   * back to `__getattr__`: those of `dict` (as of Python 3.12) and those the
   * subclass adds.
   */
  const DictAttributes: set<string> := {
    "clear", "copy", "fromkeys", "get", "items", "keys", "pop", "popitem", "setdefault", "update", "values",
    "__class__", "__class_getitem__", "__contains__", "__delattr__", "__delitem__", "__dir__", "__doc__",
    "__eq__", "__format__", "__ge__", "__getattribute__", "__getitem__", "__getstate__", "__gt__",
    "__hash__", "__init__", "__init_subclass__", "__ior__", "__iter__", "__le__", "__len__", "__lt__",
    "__ne__", "__new__", "__or__", "__reduce__", "__reduce_ex__", "__repr__", "__reversed__", "__ror__",
    "__setattr__", "__setitem__", "__sizeof__", "__str__", "__subclasshook__",
    "__dict__", "__getattr__", "__module__", "__weakref__"
  }

  /** What `del` on an absent key raises. */
  datatype Error = KeyError(key: string)

  /** `dotdict`: item access doubles as attribute access. */
  class DotDict {
    var items: seq<(string, Value)>

    ghost predicate Valid()
      reads this
    {
      UniqueKeys(items)
    }

    /** `dotdict(d)` copies the items of `d`. */
    constructor (init: seq<(string, Value)>)
      requires UniqueKeys(init)
      ensures Valid() && items == init
    {
      items := init;
    }

    /**
     * `d.key`: a name the class provides is found by ordinary lookup; any other
     * name goes to `__getattr__`, which is `dict.get(d, key)`, so a missing key
     * reads as `None` instead of raising.
     */
    function GetAttr(key: string): (r: Value)
      reads this
      ensures key in DictAttributes ==> r == ClassAttribute(key)
      ensures key !in DictAttributes && key !in Keys(items) ==> r == Null
      ensures key !in DictAttributes && key in Keys(items) ==> (key, r) in items
    {
      if key in DictAttributes then ClassAttribute(key)
      else
        match Get(items, key)
        case Some(v) => GetFound(items, key); v
        case None => Null
    }

    /** `d.key = value`, which is `d[key] = value`. */
    method SetAttr(key: string, value: Value)
      requires Valid()
      modifies this
      ensures Valid()
      ensures items == Put(old(items), key, value)
      ensures Get(items, key) == Some(value)
      ensures key !in DictAttributes ==> GetAttr(key) == value
      ensures key in DictAttributes ==> GetAttr(key) == ClassAttribute(key)
      ensures forall k :: k != key ==> Get(items, k) == Get(old(items), k)
    {
      PutUnique(items, key, value);
      items := Put(items, key, value);
      forall k ensures Get(items, k) == if k == key then Some(value) else Get(old(items), k) {
        PutGet(old(items), key, value, k);
      }
    }

    /** `del d.key`, which is `del d[key]`: raises `KeyError` when the key is absent. */
    method DelAttr(key: string) returns (err: Option<Error>)
      requires Valid()
      modifies this
      ensures Valid()
      ensures err == if key in Keys(old(items)) then None else Some(KeyError(key))
      ensures items == Remove(old(items), key)
      ensures key !in Keys(items)
      ensures forall k :: k != key ==> Get(items, k) == Get(old(items), k)
    {
      RemoveSize(items, key);
      if key !in Keys(items) {
        return Some(KeyError(key));
      }
      RemoveUnique(items, key);
      forall k ensures Get(Remove(items, key), k) == if k == key then None else Get(items, k) {
        RemoveGet(items, key, k);
      }
      items := Remove(items, key);
      assert Get(items, key) == None;
      err := None;
    }
  }

  /** The value `get` returns sits beside its key. */
  lemma {:induction false} GetFound(d: seq<(string, Value)>, k: string)
    requires Get(d, k).Some?
    ensures (k, Get(d, k).value) in d
  {
    if d[0].0 != k {
      GetFound(d[1..], k);
    }
  }

  /** `key.startswith('__')`. */
  predicate IsDunder(key: string)
  {
    |key| >= 2 && key[0] == '_' && key[1] == '_'
  }

  /** The class attributes that `to_dict` exports. */
  predicate Exported(key: string)
  {
    !IsDunder(key) && key != "to_dict"
  }

  /** How `to_dict` stores an exported value: callables by name, arrays as lists. */
  function Converted(v: Value): (r: Value)
    ensures v.Callable? ==> r == Str(v.name)
    ensures v.NdArray? ==> r == List(v.asList)
    ensures !v.Callable? && !v.NdArray? ==> r == v
  {
    match v
    case Callable(name) => Str(name)
    case NdArray(elems) => List(elems)
    case _ => v
  }

  /** The items of `to_dict()` for the class attribute table `attrs`, in order. */
  function Exporting(attrs: seq<(string, Value)>): seq<(string, Value)>
  {
    if attrs == [] then []
    else
      var (key, value) := attrs[|attrs| - 1];
      Exporting(attrs[..|attrs| - 1]) + (if Exported(key) then [(key, Converted(value))] else [])
  }

  /** The exported keys of `keys`, in order. */
  function ExportedKeys(keys: seq<string>): seq<string>
  {
    if keys == [] then []
    else ExportedKeys(keys[..|keys| - 1]) + (if Exported(keys[|keys| - 1]) then [keys[|keys| - 1]] else [])
  }

  /**
   * `BaseConfig.to_dict`: walks `vars(self.__class__)`, here `attrs`, and
   * stores every exported attribute, converted, in a fresh dict.
   */
  method ToDict(attrs: seq<(string, Value)>) returns (d: seq<(string, Value)>)
    requires UniqueKeys(attrs)
    ensures d == Exporting(attrs)
  {
    d := [];
    var i := 0;
    while i < |attrs|
      invariant 0 <= i <= |attrs|
      invariant d == Exporting(attrs[..i])
    {
      var (key, value) := attrs[i];
      assert attrs[..i + 1][..i] == attrs[..i];
      if Exported(key) {
        var out := value;
        if value.Callable? {
          out := Str(value.name);
        } else if value.NdArray? {
          out := List(value.asList);
        }
        UniquePrefix(attrs, i);
        ExportingKeys(attrs[..i]);
        if key in Keys(d) {
          ExportedKeysFrom(Keys(attrs[..i]), key);
        }
        PutKeys(d, key, out);
        d := Put(d, key, out);
      }
      i := i + 1;
    }
    assert attrs[..i] == attrs;
  }

  /** The keys `to_dict` outputs are the exported attribute keys, in attribute order. */
  lemma {:induction false} ExportingKeys(attrs: seq<(string, Value)>)
    ensures Keys(Exporting(attrs)) == ExportedKeys(Keys(attrs))
  {
    if attrs != [] {
      var n := |attrs| - 1;
      ExportingKeys(attrs[..n]);
      KeysAppend(Exporting(attrs[..n]), if Exported(attrs[n].0) then [(attrs[n].0, Converted(attrs[n].1))] else []);
      KeysAppend(attrs[..n], [attrs[n]]);
      assert attrs == attrs[..n] + [attrs[n]];
      assert Keys(attrs)[..n] == Keys(attrs[..n]);
    }
  }

  /** Only keys of the table can be exported. */
  lemma {:induction false} ExportedKeysFrom(keys: seq<string>, key: string)
    requires key in ExportedKeys(keys)
    ensures key in keys
  {
    var n := |keys| - 1;
    if key != keys[n] || !Exported(keys[n]) {
      ExportedKeysFrom(keys[..n], key);
    }
  }

  /** `to_dict` never outputs a key that starts with `__`, nor the key `to_dict`. */
  lemma {:induction false} ExportingHidesDunders(attrs: seq<(string, Value)>)
    ensures forall i :: 0 <= i < |Exporting(attrs)| ==> !IsDunder(Exporting(attrs)[i].0) && Exporting(attrs)[i].0 != "to_dict"
  {
    if attrs != [] {
      ExportingHidesDunders(attrs[..|attrs| - 1]);
    }
  }

  /** Every exported attribute appears, converted, in the output ... */
  lemma {:induction false} ExportingKeeps(attrs: seq<(string, Value)>, j: nat)
    requires j < |attrs| && Exported(attrs[j].0)
    ensures (attrs[j].0, Converted(attrs[j].1)) in Exporting(attrs)
  {
    var n := |attrs| - 1;
    if j < n {
      ExportingKeeps(attrs[..n], j);
    }
  }

  /** ... and every output item is an attribute of the table, converted. */
  lemma {:induction false} ExportingFrom(attrs: seq<(string, Value)>, i: nat)
    requires i < |Exporting(attrs)|
    ensures exists j :: 0 <= j < |attrs| && Exporting(attrs)[i] == (attrs[j].0, Converted(attrs[j].1))
  {
    var n := |attrs| - 1;
    if i < |Exporting(attrs[..n])| {
      ExportingFrom(attrs[..n], i);
      var j :| 0 <= j < n && Exporting(attrs[..n])[i] == (attrs[..n][j].0, Converted(attrs[..n][j].1));
      assert attrs[..n][j] == attrs[j];
    } else {
      assert Exporting(attrs)[i] == (attrs[n].0, Converted(attrs[n].1));
    }
  }

  /**
   * A representative attribute table for the example `Config` class of the
   * repository: its five settings in order, between dunder entries that the
   * interpreter adds (which ones exactly depends on the Python version; all of
   * them are hidden from the export).
   */
  function ExampleAttrs(): seq<(string, Value)>
  {
    [ ("__module__", Str("config")),
      ("__firstlineno__", Int(3)),
      ("lr", Float(0.01)),
      ("batch_size", Int(32)),
      ("input_size", Tuple([Int(256), Int(256)])),
      ("weights", List(seq(100, i => Int(i)))),
      ("list_path", Str("./data/list.txt")),
      ("__doc__", Null) ]
  }

  /** For the example class, `to_dict` keeps exactly its five settings, in order. */
  lemma {:induction false} ExampleExport()
    ensures Keys(Exporting(ExampleAttrs())) == ["lr", "batch_size", "input_size", "weights", "list_path"]
    ensures Exporting(ExampleAttrs()) == ExampleAttrs()[2..7]
  {
    var a := ExampleAttrs();
    assert !Exported(a[0].0) && !Exported(a[1].0) && !Exported(a[7].0);
    assert forall i :: 2 <= i < 7 ==> Exported(a[i].0) && Converted(a[i].1) == a[i].1;
    ExportingMiddle(a);
    var out := a[2..7];
    forall i | 0 <= i < 5 ensures Keys(out)[i] == out[i].0 {
      KeysAt(out, i);
    }
  }

  /** A table of eight attributes whose first two and last one are hidden exports its middle five. */
  lemma {:induction false} ExportingMiddle(a: seq<(string, Value)>)
    requires |a| == 8 && !Exported(a[0].0) && !Exported(a[1].0) && !Exported(a[7].0)
    requires forall i :: 2 <= i < 7 ==> Exported(a[i].0) && Converted(a[i].1) == a[i].1
    ensures Exporting(a) == a[2..7]
  {
    ExportingSnoc(a, 0);
    ExportingSnoc(a, 1);
    assert Exporting(a[..2]) == [];
    ExportingSnoc(a, 2);
    ExportingSnoc(a, 3);
    ExportingSnoc(a, 4);
    ExportingSnoc(a, 5);
    ExportingSnoc(a, 6);
    assert Exporting(a[..7]) == [a[2], a[3], a[4], a[5], a[6]];
    ExportingSnoc(a, 7);
    assert a[..8] == a;
  }

  /** One more attribute adds at most one item, at the end. */
  lemma {:induction false} ExportingSnoc(attrs: seq<(string, Value)>, i: nat)
    requires i < |attrs|
    ensures Exporting(attrs[..i + 1]) == Exporting(attrs[..i]) + (if Exported(attrs[i].0) then [(attrs[i].0, Converted(attrs[i].1))] else [])
  {
    assert attrs[..i + 1][..i] == attrs[..i];
  }
}
