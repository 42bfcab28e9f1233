/** Message intake (Widget::onDataReceived): the children of the datagram's
    root element become the message's fields, and an `icon` field is
    resolved to a pixmap through a three-way fallback. */
module Messages {
  import opened Foreign

  /** A field value: a string from the datagram, or the resolved icon. */
  datatype Value = Text(text: string) | Picture(pixmap: Pixmap)

  /** Message::data: field name to optional value. */
  type Fields = map<string, Option<Value>>

  datatype Message = Message(data: Fields)

  /** Reading m.data[k]; a key that is not there reads as an empty optional. */
  function Get(m: Message, k: string): Option<Value> {
    if k in m.data then m.data[k] else None
  }

  /** QVariant::toString(): a pixmap has no string form. */
  function ToString(v: Value): string {
    match v
    case Text(s) => s
    case Picture(_) => ""
  }

  /** One direct child of the `root` element: its tag and its text. */
  datatype Child = Child(name: string, text: string)

  /** What the body of the `try` block achieved.
      - Parsed: the datagram was read, `read_xml` and `get_child("root")`
        succeeded and every child was assigned;
      - Threw: an exception left the block after the children in `filled` were
        assigned (none when `read_xml` or `get_child` threw). */
  datatype ReadOutcome =
    | Parsed(children: seq<Child>)
    | Threw(filled: seq<Child>)

  /** The children whose assignment to m.data completed. */
  function Filled(o: ReadOutcome): seq<Child> {
    match o
    case Parsed(cs) => cs
    case Threw(cs) => cs
  }

  /** The fields after assigning the children in order, each assignment
      overwriting an earlier one of the same name. */
  function FieldsOf(cs: seq<Child>): Fields
    decreases |cs|
  {
    if cs == [] then map[]
    else FieldsOf(cs[..|cs| - 1])[cs[|cs| - 1].name := Some(Text(cs[|cs| - 1].text))]
  }

  /** Child j is named k. */
  ghost predicate NamedAt(cs: seq<Child>, k: string, j: int) {
    0 <= j < |cs| && cs[j].name == k
  }

  /** Child j is the last child named k. */
  ghost predicate LastNamedAt(cs: seq<Child>, k: string, j: int) {
    NamedAt(cs, k, j) && forall i :: j < i < |cs| ==> cs[i].name != k
  }

  /** A name is a field exactly when some child carries it. */
  lemma {:induction false} FieldsOfDomain(cs: seq<Child>, k: string)
    ensures k in FieldsOf(cs) <==> exists j :: NamedAt(cs, k, j)
    decreases |cs|
  {
    if cs != [] {
      var n := |cs| - 1;
      var init := cs[..n];
      FieldsOfDomain(init, k);
      if cs[n].name == k {
        assert NamedAt(cs, k, n);
      } else {
        if k in FieldsOf(init) {
          var j :| NamedAt(init, k, j);
          assert NamedAt(cs, k, j);
        }
        if exists j :: NamedAt(cs, k, j) {
          var j :| NamedAt(cs, k, j);
          assert NamedAt(init, k, j);
        }
      }
    }
  }

  /** The value of a field is the text of the last child of that name. */
  lemma {:induction false} FieldsOfLastWins(cs: seq<Child>, k: string, j: int)
    requires LastNamedAt(cs, k, j)
    ensures k in FieldsOf(cs) && FieldsOf(cs)[k] == Some(Text(cs[j].text))
    decreases |cs|
  {
    var n := |cs| - 1;
    var init := cs[..n];
    if j < n {
      assert cs[n].name != k;
      assert LastNamedAt(init, k, j);
      FieldsOfLastWins(init, k, j);
    }
  }

  /** The loop of onDataReceived that assigns m.data[name] for each child. */
  method FillFields(cs: seq<Child>) returns (data: Fields)
    ensures data == FieldsOf(cs)
  {
    data := map[];
    var i := 0;
    while i < |cs|
      invariant 0 <= i <= |cs|
      invariant data == FieldsOf(cs[..i])
    {
      assert cs[..i + 1][..i] == cs[..i];
      data := data[cs[i].name := Some(Text(cs[i].text))];
      i := i + 1;
    }
    assert cs[..|cs|] == cs;
  }

  /** The settings key under which an icon name may be configured. */
  function IconKey(name: string): string {
    "icons/" + name
  }

  /** The pixmap stored for an `icon` field: the file it names if that loads,
      else the file configured under icons/<name> (used whether or not it
      loads), else the 1x1 placeholder. */
  function ResolveIcon(name: string, env: Environment): (p: Pixmap)
    ensures !IsNull(env.load(name)) ==> p == env.load(name)
    ensures IsNull(env.load(name)) && IconKey(name) in env.settings ==>
              p == env.load(env.settings[IconKey(name)])
    ensures IsNull(env.load(name)) && IconKey(name) !in env.settings ==> p == Placeholder(env)
  {
    var direct := env.load(name);
    if !IsNull(direct) then direct
    else if IconKey(name) in env.settings then env.load(env.settings[IconKey(name)])
    else Placeholder(env)
  }

  /** The resolved icon is null exactly when the direct load fails, a path is
      configured for the name and that path does not load either. */
  lemma NullIconOnlyFromConfiguredPath(name: string, env: Environment)
    ensures IsNull(ResolveIcon(name, env)) <==>
              IsNull(env.load(name)) && IconKey(name) in env.settings &&
              IsNull(env.load(env.settings[IconKey(name)]))
  {
  }

  /** The configured path is not checked: an environment in which an icon
      resolves to a null pixmap. */
  lemma ConfiguredIconMayBeNull()
    ensures exists env: Environment :: IsNull(ResolveIcon("x", env))
  {
    var env := Environment(map[IconKey("x") := "missing.png"], _ => NullPixmap,
                           p => p, _ => 0, _ => 0, Argb(0, 0, 0, 0));
    assert IsNull(ResolveIcon("x", env));
  }

  /** Lines 100-116 of onDataReceived: a present `icon` is replaced by its
      resolved pixmap; reading m.data["icon"] inserts an empty `icon` entry
      when there is none; every other field is kept. */
  function WithIcon(data: Fields, env: Environment): (r: Fields)
    ensures r.Keys == data.Keys + {"icon"}
    ensures forall k :: k in data && k != "icon" ==> r[k] == data[k]
    ensures Get(Message(data), "icon").None? ==> r["icon"] == None
    ensures Get(Message(data), "icon").Some? ==>
              r["icon"] == Some(Picture(ResolveIcon(ToString(Get(Message(data), "icon").value), env)))
  {
    match Get(Message(data), "icon")
    case None => data["icon" := None]
    case Some(v) => data["icon" := Some(Picture(ResolveIcon(ToString(v), env)))]
  }

  /** The message onDataReceived pushes, whatever the outcome of the read. */
  function Intake(o: ReadOutcome, env: Environment): (m: Message)
    ensures "icon" in m.data
  {
    Message(WithIcon(FieldsOf(Filled(o)), env))
  }

  /** The body of onDataReceived up to the push: fill the fields, then
      resolve the icon. */
  method BuildMessage(o: ReadOutcome, env: Environment) returns (m: Message)
    ensures m == Intake(o, env)
  {
    var data := FillFields(Filled(o));
    m := Message(WithIcon(data, env));
  }

  /** Every field other than `icon` comes from the children: present exactly
      when a child is so named, with the text of the last one. */
  lemma IntakeFields(o: ReadOutcome, env: Environment, k: string)
    requires k != "icon"
    ensures k in Intake(o, env).data <==> exists j :: NamedAt(Filled(o), k, j)
    ensures forall j :: LastNamedAt(Filled(o), k, j) ==>
              Intake(o, env).data[k] == Some(Text(Filled(o)[j].text))
  {
    FieldsOfDomain(Filled(o), k);
    forall j | LastNamedAt(Filled(o), k, j)
      ensures Intake(o, env).data[k] == Some(Text(Filled(o)[j].text))
    {
      FieldsOfLastWins(Filled(o), k, j);
    }
  }

  /** The `icon` field: empty when no child is named `icon`, otherwise the
      icon resolved from the text of the last such child. */
  lemma IntakeIcon(o: ReadOutcome, env: Environment)
    ensures (forall j :: !NamedAt(Filled(o), "icon", j)) ==> Intake(o, env).data["icon"] == None
    ensures forall j :: LastNamedAt(Filled(o), "icon", j) ==>
              Intake(o, env).data["icon"] == Some(Picture(ResolveIcon(Filled(o)[j].text, env)))
  {
    FieldsOfDomain(Filled(o), "icon");
    forall j | LastNamedAt(Filled(o), "icon", j)
      ensures Intake(o, env).data["icon"] == Some(Picture(ResolveIcon(Filled(o)[j].text, env)))
    {
      FieldsOfLastWins(Filled(o), "icon", j);
    }
  }

  /** When read_xml or get_child throws, the message pushed holds only the
      empty `icon` entry. */
  lemma IntakeAfterEarlyFailure(env: Environment)
    ensures Intake(Threw([]), env) == Message(map["icon" := None])
  {
  }
}
