/** The kitchen ticket of the print agent (`formatKitchenTicket`): a
    32-column text with a framed header, the order's number, table, type,
    time and note, one line per item with its modifiers below it, and a
    framed footer. The time is read from the clock in the source; here it
    is an input, already formatted. */
module Ticket {
  import opened Wrappers
  import opened Text
  import opened Money
  import opened Store
  import opened Escpos

  datatype TicketModifier = TicketModifier(name: string, priceOverride: int)

  /** An order item: the product's name (None when the product is missing)
      and the modifiers, None when the row has no modifier list. */
  datatype TicketItem = TicketItem(quantity: int, productName: Option<string>, modifiers: Option<seq<TicketModifier>>)

  datatype TicketOrder = TicketOrder(id: string, notes: Option<string>, orderType: OrderType, time: string,
                                     tableName: Option<string>, items: seq<TicketItem>)

  /** `centerText`: a text of 32 characters or more is cut to 32; a shorter
      one gets half the free columns, rounded down, as leading spaces. */
  function CenterText(text: string): (r: string)
    ensures |text| >= Width ==> r == text[..Width]
    ensures |text| < Width ==> |r| <= Width && r == Spaces((Width - |text|) / 2) + text
  {
    if |text| >= Width then text[..Width] else Spaces((Width - |text|) / 2) + text
  }

  /** A short text ends the centred line and sits in the middle: the free
      columns on its right are those on its left or one more. */
  lemma CenterTextIsCentred(text: string)
    requires |text| < Width
    ensures var r := CenterText(text);
      var left := |r| - |text|;
      r[left..] == text && (Width - |r| == left || Width - |r| == left + 1)
  {
    var r := CenterText(text);
    assert r[|r| - |text|..] == text;
  }

  function TypeLabel(t: OrderType): string {
    if t == Takeout then "PARA LLEVAR" else "COMER AQUI"
  }

  /** The note is printed when there is one that repeats neither the table
      name nor the takeout label. */
  predicate ShowsNote(o: TicketOrder) {
    Truthy(o.notes) && Some(o.notes.value) != o.tableName && o.notes.value != "Para Llevar"
  }

  /** The framed title of every ticket. */
  const Banner: seq<string> := [DoubleLine, CenterText("TAQUERIA LA ANDALUZA"), CenterText("COMANDA COCINA"), DoubleLine]

  /** The header, line after line: the banner, the number, the table when
      there is one, the type and the time, the note when it is shown, and a
      separator. */
  function HeaderLines(o: TicketOrder): seq<string> {
    var numbered := Banner + [FormatRow("Orden:", "#" + ShortId(o.id), Width)];
    var tabled := if Truthy(o.tableName) then numbered + [FormatRow("Mesa:", o.tableName.value, Width)] else numbered;
    var timed := tabled + [FormatRow("Tipo:", TypeLabel(o.orderType), Width)] + [FormatRow("Hora:", o.time, Width)];
    var noted := if ShowsNote(o) then timed + ["Nota: " + o.notes.value] else timed;
    noted + [Line]
  }

  /** A modifier's line, with its price only when it costs extra. */
  function ModifierLine(m: TicketModifier): string {
    "   + " + m.name + (if m.priceOverride > 0 then " +$" + Fixed2(m.priceOverride) else "")
  }

  function ModifierLines(mods: seq<TicketModifier>): seq<string> {
    if |mods| == 0 then [] else ModifierLines(mods[..|mods| - 1]) + [ModifierLine(mods[|mods| - 1])]
  }

  /** An item's line: its quantity, which reads back, then "x " and the
      product's name. */
  function ItemLine(item: TicketItem): (r: string)
    ensures var name := item.productName.GetOr("Producto"); var n := |r| - |name| - 2;
      n >= 0 && ParseInt(r[..n]) == item.quantity && r[n..n + 2] == "x " && r[n + 2..] == name
  {
    var q := IntToString(item.quantity);
    var r := q + "x " + item.productName.GetOr("Producto");
    IntToStringRoundTrip(item.quantity);
    assert r[..|q|] == q;
    r
  }

  function ItemLines(item: TicketItem): seq<string> {
    [ItemLine(item)] + (if item.modifiers.Some? then ModifierLines(item.modifiers.value) else [])
  }

  function BodyLines(items: seq<TicketItem>): seq<string> {
    if |items| == 0 then [] else BodyLines(items[..|items| - 1]) + ItemLines(items[|items| - 1])
  }

  const FooterLines: seq<string> := [Line, CenterText("*** NUEVA ***"), DoubleLine, ""]

  function TicketLines(o: TicketOrder): seq<string> {
    HeaderLines(o) + BodyLines(o.items) + FooterLines
  }

  /** The header pushes of `formatKitchenTicket`. */
  method PushHeader(o: TicketOrder) returns (lines: seq<string>)
    ensures lines == HeaderLines(o)
  {
    lines := Banner;
    lines := lines + [FormatRow("Orden:", "#" + ShortId(o.id), Width)];
    if Truthy(o.tableName) {
      lines := lines + [FormatRow("Mesa:", o.tableName.value, Width)];
    }
    lines := lines + [FormatRow("Tipo:", TypeLabel(o.orderType), Width)];
    lines := lines + [FormatRow("Hora:", o.time, Width)];
    if Truthy(o.notes) && Some(o.notes.value) != o.tableName && o.notes.value != "Para Llevar" {
      lines := lines + ["Nota: " + o.notes.value];
    }
    lines := lines + [Line];
  }

  /** The pushes for one item: its line, then one line per modifier. */
  method PushItem(lines: seq<string>, item: TicketItem) returns (r: seq<string>)
    ensures r == lines + ItemLines(item)
  {
    r := lines + [IntToString(item.quantity) + "x " + item.productName.GetOr("Producto")];
    if item.modifiers.Some? {
      var mods := item.modifiers.value;
      for j := 0 to |mods|
        invariant r == lines + [ItemLine(item)] + ModifierLines(mods[..j])
      {
        assert mods[..j + 1][..j] == mods[..j];
        var priceStr := if mods[j].priceOverride > 0 then " +$" + Fixed2(mods[j].priceOverride) else "";
        r := r + ["   + " + mods[j].name + priceStr];
      }
      assert mods[..|mods|] == mods;
    }
  }

  /** The item loop of `formatKitchenTicket`. */
  method PushItems(lines: seq<string>, items: seq<TicketItem>) returns (r: seq<string>)
    ensures r == lines + BodyLines(items)
  {
    r := lines;
    for i := 0 to |items|
      invariant r == lines + BodyLines(items[..i])
    {
      PushStep(lines, items, i);
      r := PushItem(r, items[i]);
    }
    assert items[..|items|] == items;
  }

  /** `formatKitchenTicket`: the lines are pushed one by one and joined
      with newlines. */
  method FormatKitchenTicket(o: TicketOrder) returns (ticket: string)
    ensures ticket == Join(TicketLines(o), "\n")
  {
    var lines := PushHeader(o);
    lines := PushItems(lines, o.items);
    lines := lines + FooterLines;
    ticket := Join(lines, "\n");
  }

  /** One more pushed item extends the pushed body by one item. */
  lemma PushStep(lines: seq<string>, items: seq<TicketItem>, i: nat)
    requires i < |items|
    ensures (lines + BodyLines(items[..i])) + ItemLines(items[i]) == lines + BodyLines(items[..i + 1])
  {
    BodySnoc(items, i);
  }

  lemma BodySnoc(items: seq<TicketItem>, i: nat)
    requires i < |items|
    ensures BodyLines(items[..i + 1]) == BodyLines(items[..i]) + ItemLines(items[i])
  {
    assert items[..i + 1][..i] == items[..i];
  }

  /** The header's shape: the number line is the fifth; the table line
      follows it exactly when there is a table name; the note line comes
      right before the separator exactly when a note is shown. */
  lemma HeaderShape(o: TicketOrder)
    ensures var h := HeaderLines(o);
      var t := if Truthy(o.tableName) then 1 else 0;
      var n := if ShowsNote(o) then 1 else 0;
      && |h| == 8 + t + n
      && h[4] == FormatRow("Orden:", "#" + ShortId(o.id), Width)
      && (Truthy(o.tableName) ==> h[5] == FormatRow("Mesa:", o.tableName.value, Width))
      && h[5 + t] == FormatRow("Tipo:", TypeLabel(o.orderType), Width)
      && (ShowsNote(o) ==> h[7 + t] == "Nota: " + o.notes.value)
      && h[|h| - 1] == Line
  {
  }

  /** The order number prints the first six characters of the id in upper
      case, after "#", at the end of its 32-column line. */
  lemma NumberLine(o: TicketOrder)
    ensures var r := FormatRow("Orden:", "#" + ShortId(o.id), Width);
      var v := "#" + ShortId(o.id);
      |r| == Width && r[Width - |v|..] == v && v[1..] == ShortId(o.id)
  {
  }

  /** A modifier's price is printed only when it is positive, and then it
      reads back as the price. */
  lemma ModifierPrice(m: TicketModifier)
    ensures m.priceOverride <= 0 ==> ModifierLine(m) == "   + " + m.name
    ensures m.priceOverride > 0 ==>
      var prefix := "   + " + m.name + " +$";
      var line := ModifierLine(m);
      |line| > |prefix| && line[..|prefix|] == prefix && ParseFixed2(line[|prefix|..]) == m.priceOverride
  {
    if m.priceOverride > 0 {
      Fixed2RoundTrip(m.priceOverride);
      var prefix := "   + " + m.name + " +$";
      assert ModifierLine(m) == prefix + Fixed2(m.priceOverride);
    }
  }

  function ModifierCount(items: seq<TicketItem>): nat {
    if |items| == 0 then 0
    else
      var last := items[|items| - 1];
      ModifierCount(items[..|items| - 1]) + (if last.modifiers.Some? then |last.modifiers.value| else 0)
  }

  lemma {:induction false} ModifierLinesLength(mods: seq<TicketModifier>)
    ensures |ModifierLines(mods)| == |mods|
    ensures forall k | 0 <= k < |mods| :: ModifierLines(mods)[k] == ModifierLine(mods[k])
  {
    if |mods| > 0 {
      ModifierLinesLength(mods[..|mods| - 1]);
    }
  }

  /** The body holds one line per item and one per modifier. */
  lemma {:induction false} BodyLength(items: seq<TicketItem>)
    ensures |BodyLines(items)| == |items| + ModifierCount(items)
  {
    if |items| > 0 {
      BodyLength(items[..|items| - 1]);
      var last := items[|items| - 1];
      if last.modifiers.Some? {
        ModifierLinesLength(last.modifiers.value);
      }
    }
  }

  /** Lines that start with a given line and end with it followed by an
      empty line join into a text framed by that line and a final
      newline. */
  lemma {:induction false} JoinFramed(lines: seq<string>, frame: string, sep: string)
    requires |lines| >= 3 && lines[0] == frame && lines[|lines| - 2] == frame && lines[|lines| - 1] == ""
    ensures var t := Join(lines, sep);
      |t| >= |frame| + |sep| && t[..|frame|] == frame && t[|t| - |frame| - |sep|..] == frame + sep
  {
    JoinStartsWithFirst(lines, sep);
    var n := |lines|;
    var body := lines[..n - 2];
    assert lines == body + [frame] + [""];
    JoinSnoc(body, frame, sep);
    JoinSnoc(body + [frame], "", sep);
  }

  /** The ticket starts with the double line and ends with the double line
      and a newline. */
  lemma TicketFrame(o: TicketOrder)
    ensures var t := Join(TicketLines(o), "\n");
      |t| >= Width + 1
      && t[..Width] == DoubleLine
      && t[|t| - Width - 1..] == DoubleLine + "\n"
  {
    var lines := TicketLines(o);
    assert lines[0] == DoubleLine;
    assert lines[|lines| - 2] == DoubleLine && lines[|lines| - 1] == "";
    JoinFramed(lines, DoubleLine, "\n");
  }
}
