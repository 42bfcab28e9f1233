/** The three labels of the popup and the width the popup grows to
    (Widget::setupIcon, setupTitle, setupContent and computeWidth), all read
    from the message at the head of the queue. */
module Labels {
  import opened Foreign
  import opened Messages

  /** The optional m.data[k] is set. */
  predicate Has(m: Message, k: string) {
    Get(m, k).Some?
  }

  /** m.data[k]->toString(). */
  function FieldString(m: Message, k: string): string
    requires Has(m, k)
  {
    ToString(Get(m, k).value)
  }

  /** qvariant_cast<QPixmap>: a value that holds no pixmap casts to the null
      pixmap. */
  function PixmapOf(v: Value): Pixmap {
    match v
    case Picture(p) => p
    case Text(_) => NullPixmap
  }

  /** setupIcon: the label shows the 15x15 crop of the icon, or a null pixmap
      when the message has none. */
  function IconLabel(m: Message, env: Environment): Pixmap {
    if Has(m, "icon") then env.crop(PixmapOf(Get(m, "icon").value)) else NullPixmap
  }

  /** setupTitle: the title, after one separating space when an icon stands
      before it; empty without a title. */
  function TitleText(m: Message): (t: string)
    ensures !Has(m, "title") ==> t == ""
    ensures Has(m, "title") ==>
              |t| == |FieldString(m, "title")| + (if Has(m, "icon") then 1 else 0)
    ensures Has(m, "title") ==> t[|t| - |FieldString(m, "title")|..] == FieldString(m, "title")
    ensures Has(m, "title") && Has(m, "icon") ==> t[0] == ' '
  {
    if Has(m, "title") then (if Has(m, "icon") then " " else "") + FieldString(m, "title")
    else ""
  }

  /** setupContent: the content padded with one space on each side; empty
      without content. */
  function ContentText(m: Message): (c: string)
    ensures !Has(m, "content") ==> c == ""
    ensures Has(m, "content") ==> |c| == |FieldString(m, "content")| + 2
    ensures Has(m, "content") ==> c[0] == ' ' && c[|c| - 1] == ' '
    ensures Has(m, "content") ==> c[1..|c| - 1] == FieldString(m, "content")
  {
    if Has(m, "content") then " " + FieldString(m, "content") + " " else ""
  }

  /** The title a title label carries, given whether an icon is shown. */
  function TitleOf(t: string, hasIcon: bool): string
    requires hasIcon ==> |t| > 0
  {
    if hasIcon then t[1..] else t
  }

  /** Reading a title label back gives the message's title. */
  lemma TitleTextRoundTrip(m: Message)
    requires Has(m, "title")
    ensures TitleOf(TitleText(m), Has(m, "icon")) == FieldString(m, "title")
  {
  }

  /** What the icon, title and text labels show. */
  datatype View = View(icon: Pixmap, title: string, text: string)

  /** setupIcon, setupTitle and setupContent for the message m. */
  function Setup(m: Message, env: Environment): View {
    View(IconLabel(m, env), TitleText(m), ContentText(m))
  }

  /** computeWidth: the title measured under the regular font, the content
      under the bold font, and the shown icon's width when there is an icon. */
  function ComputeWidth(m: Message, env: Environment): int {
    env.regularWidth(TitleText(m)) + env.boldWidth(ContentText(m))
      + (if Has(m, "icon") then PixmapWidth(IconLabel(m, env)) else 0)
  }

  /** A message with no title, no content and no icon measures 0 when the
      empty string does. */
  lemma WidthOfEmptyMessage(m: Message, env: Environment)
    requires !Has(m, "title") && !Has(m, "content") && !Has(m, "icon")
    requires env.regularWidth("") == 0 && env.boldWidth("") == 0
    ensures ComputeWidth(m, env) == 0
  {
  }

  /** A message with only a title measures as that title under the regular
      font. */
  lemma WidthOfTitleOnly(m: Message, env: Environment)
    requires Has(m, "title") && !Has(m, "content") && !Has(m, "icon")
    requires env.boldWidth("") == 0
    ensures ComputeWidth(m, env) == env.regularWidth(FieldString(m, "title"))
  {
  }

  /** Fields other than icon, title and content change neither label nor
      width. */
  lemma UnknownFieldsUnused(m: Message, k: string, v: Option<Value>, env: Environment)
    requires k != "icon" && k != "title" && k != "content"
    ensures TitleText(Message(m.data[k := v])) == TitleText(m)
    ensures ContentText(Message(m.data[k := v])) == ContentText(m)
    ensures IconLabel(Message(m.data[k := v]), env) == IconLabel(m, env)
    ensures ComputeWidth(Message(m.data[k := v]), env) == ComputeWidth(m, env)
  {
    assert Get(Message(m.data[k := v]), "icon") == Get(m, "icon");
    assert Get(Message(m.data[k := v]), "title") == Get(m, "title");
    assert Get(Message(m.data[k := v]), "content") == Get(m, "content");
  }

  /** The datagram <root><title>Build</title><content>OK</content></root>
      grows the popup to the regular width of "Build" plus the bold width of
      " OK ". */
  lemma BuildOkWidth(env: Environment)
    ensures ComputeWidth(Intake(Parsed([Child("title", "Build"), Child("content", "OK")]), env), env)
              == env.regularWidth("Build") + env.boldWidth(" OK ")
  {
    var cs := [Child("title", "Build"), Child("content", "OK")];
    assert cs[..1] == [Child("title", "Build")];
    assert [Child("title", "Build")][..0] == [];
    var m := Intake(Parsed(cs), env);
    assert m.data == map["title" := Some(Text("Build")), "content" := Some(Text("OK")), "icon" := None];
    assert TitleText(m) == "Build";
    assert ContentText(m) == " OK ";
  }
}
