/** The data model of the restaurant back end (tabla/models.py) as far as
    it holds logic: the reservation and sale records, the monthly profit
    aggregate `GananciaMes` with its full recompute, the save hooks that
    trigger it, the comment-author normalisation and the image upload path.
    The database is represented by a `BaseDeDatos` object holding the two
    source tables as sequences and the aggregates keyed by month. */
module Models {
  import opened Wrappers
  import opened Dates
  import opened Secuencias

  // ---------------------------------------------------------------------
  // Records

  datatype Hora = Hora(hour: nat, minute: nat, second: nat)

  /** A table reservation. `hora` may be absent until the save hook checks
      it; `fechaReg` is set to the current date when the row is created. */
  datatype ReservaDeMesa = ReservaDeMesa(
    usuario: nat, numPersonas: int, numeroMesa: int, fecha: ValidDate,
    precio: int, hora: Option<Hora>, nota: Option<string>, fechaReg: ValidDate)

  /** A sale. `fechaVenta` is set to the current date when the row is created. */
  datatype RegistroDeVenta = RegistroDeVenta(
    cliente: nat, platos: set<nat>, bebidas: set<nat>, entradas: set<nat>,
    total: int, fechaVenta: ValidDate)

  /** One record as the per-day breakdown sees it: its day of the month and
      its amount in cents. */
  datatype Asiento = Asiento(dia: int, monto: int)

  predicate EnMes(d: ValidDate, mes: ValidDate)
  {
    d.year == mes.year && d.month == mes.month
  }

  /** `ReservaDeMesa.objects.filter(fecha_reg__year=…, fecha_reg__month=…)`:
      the reservations registered in `mes`'s month, in table order. */
  function ReservasDelMes(reservas: seq<ReservaDeMesa>, mes: ValidDate): (rs: seq<ReservaDeMesa>)
    ensures forall r :: r in rs <==> r in reservas && EnMes(r.fechaReg, mes)
  {
    if reservas == [] then []
    else
      var last := reservas[|reservas| - 1];
      assert reservas == reservas[..|reservas| - 1] + [last];
      ReservasDelMes(reservas[..|reservas| - 1], mes) + (if EnMes(last.fechaReg, mes) then [last] else [])
  }

  /** `RegistroDeVenta.objects.filter(fecha_venta__year=…, fecha_venta__month=…)`:
      the sales made in `mes`'s month, in table order. */
  function VentasDelMes(ventas: seq<RegistroDeVenta>, mes: ValidDate): (vs: seq<RegistroDeVenta>)
    ensures forall v :: v in vs <==> v in ventas && EnMes(v.fechaVenta, mes)
  {
    if ventas == [] then []
    else
      var last := ventas[|ventas| - 1];
      assert ventas == ventas[..|ventas| - 1] + [last];
      VentasDelMes(ventas[..|ventas| - 1], mes) + (if EnMes(last.fechaVenta, mes) then [last] else [])
  }

  /** The filter keeps every reservation of the month as many times as the
      table holds it, and no other. */
  lemma {:induction false} ReservasDelMesMultiplicidad(reservas: seq<ReservaDeMesa>, mes: ValidDate)
    ensures forall r :: multiset(ReservasDelMes(reservas, mes))[r]
                        == if EnMes(r.fechaReg, mes) then multiset(reservas)[r] else 0
  {
    if reservas != [] {
      var ys, x := reservas[..|reservas| - 1], reservas[|reservas| - 1];
      assert reservas == ys + [x];
      ReservasDelMesMultiplicidad(ys, mes);
      assert ReservasDelMes(reservas, mes) == ReservasDelMes(ys, mes) + (if EnMes(x.fechaReg, mes) then [x] else []);
    }
  }

  /** The filter keeps every sale of the month as many times as the table
      holds it, and no other. */
  lemma {:induction false} VentasDelMesMultiplicidad(ventas: seq<RegistroDeVenta>, mes: ValidDate)
    ensures forall v :: multiset(VentasDelMes(ventas, mes))[v]
                        == if EnMes(v.fechaVenta, mes) then multiset(ventas)[v] else 0
  {
    if ventas != [] {
      var ys, x := ventas[..|ventas| - 1], ventas[|ventas| - 1];
      assert ventas == ys + [x];
      VentasDelMesMultiplicidad(ys, mes);
      assert VentasDelMes(ventas, mes) == VentasDelMes(ys, mes) + (if EnMes(x.fechaVenta, mes) then [x] else []);
    }
  }

  /** Each reservation as the breakdown sees it: its registration day and
      its price. */
  function AsientosDeReservas(rs: seq<ReservaDeMesa>): (a: seq<Asiento>)
    ensures |a| == |rs|
    ensures forall i :: 0 <= i < |rs| ==> a[i] == Asiento(rs[i].fechaReg.day, rs[i].precio)
  {
    seq(|rs|, i requires 0 <= i < |rs| => Asiento(rs[i].fechaReg.day, rs[i].precio))
  }

  /** Each sale as the breakdown sees it: its day and its total. */
  function AsientosDeVentas(vs: seq<RegistroDeVenta>): (a: seq<Asiento>)
    ensures |a| == |vs|
    ensures forall i :: 0 <= i < |vs| ==> a[i] == Asiento(vs[i].fechaVenta.day, vs[i].total)
  {
    seq(|vs|, i requires 0 <= i < |vs| => Asiento(vs[i].fechaVenta.day, vs[i].total))
  }

  function Dias(xs: seq<Asiento>): (d: seq<int>)
    ensures |d| == |xs|
  {
    seq(|xs|, i requires 0 <= i < |xs| => xs[i].dia)
  }

  /** `aggregate(Sum(...)) or Decimal('0.00')`: the sum of the amounts, 0 for
      no records. */
  function SumaMontos(xs: seq<Asiento>): int
  {
    if xs == [] then 0 else SumaMontos(xs[..|xs| - 1]) + xs[|xs| - 1].monto
  }

  /** The records dated on day `dia`. */
  function DelDia(xs: seq<Asiento>, dia: int): seq<Asiento>
  {
    if xs == [] then []
    else DelDia(xs[..|xs| - 1], dia) + (if xs[|xs| - 1].dia == dia then [xs[|xs| - 1]] else [])
  }

  /** The intended per-day breakdown: slot `i` holds the total amount of the
      records dated on day `fechas[i]`. */
  function PorDia(fechas: seq<int>, xs: seq<Asiento>): (g: seq<int>)
    ensures |g| == |fechas|
  {
    seq(|fechas|, i requires 0 <= i < |fechas| => SumaMontos(DelDia(xs, fechas[i])))
  }

  // ---------------------------------------------------------------------
  // The recompute, as a specification

  /** Every field `actualizar_ganancias` sets, the three transient lists
      included. Amounts are in cents. */
  datatype Resumen = Resumen(
    totalReservas: nat, totalRegistrosVenta: nat,
    gananciaReservas: int, gananciaRegistrosVenta: int, gananciaTotal: int,
    fechas: seq<int>, gananciasReservas: seq<int>, gananciasVentas: seq<int>)

  /** What a recompute of the aggregate for month `mes` produces from the
      current source tables. */
  function Resumir(mes: ValidDate, reservas: seq<ReservaDeMesa>, ventas: seq<RegistroDeVenta>): Resumen
  {
    var r := AsientosDeReservas(ReservasDelMes(reservas, mes));
    var v := AsientosDeVentas(VentasDelMes(ventas, mes));
    var fechas := SortedSet(Dias(r) + Dias(v));
    Resumen(|r|, |v|, SumaMontos(r), SumaMontos(v), SumaMontos(r) + SumaMontos(v),
            fechas, PorDia(fechas, r), PorDia(fechas, v))
  }

  // ---------------------------------------------------------------------
  // The breakdown loop

  /** One of the two `for` loops of the recompute: starting from a
      zero-filled list as long as `fechas`, every record whose day is listed
      adds its amount (`+=`) to the slot `fechas.index(day)`. */
  method Acumular(fechas: seq<int>, asientos: seq<Asiento>) returns (ganancias: seq<int>)
    requires Distinct(fechas)
    ensures ganancias == PorDia(fechas, asientos)
  {
    var g := new int[|fechas|](_ => 0);
    assert g[..] == PorDia(fechas, []);
    var i := 0;
    while i < |asientos|
      invariant 0 <= i <= |asientos|
      invariant g[..] == PorDia(fechas, asientos[..i])
    {
      var a := asientos[i];
      ghost var antes := g[..];
      if a.dia in fechas {
        var k := IndexOf(fechas, a.dia);
        g[k] := g[k] + a.monto;
        assert g[..] == antes[k := antes[k] + a.monto];
      }
      PasoDeAcumular(fechas, asientos[..i], a, antes, g[..]);
      assert asientos[..i + 1] == asientos[..i] + [a];
      i := i + 1;
    }
    assert asientos[..i] == asientos;
    ganancias := g[..];
  }

  lemma SumaMontosAppend(xs: seq<Asiento>, a: Asiento)
    ensures SumaMontos(xs + [a]) == SumaMontos(xs) + a.monto
  {
    assert (xs + [a])[..|xs|] == xs;
  }

  /** One more record adds its amount to the total of its own day and
      leaves every other day's total as it was. */
  lemma DelDiaAgregar(xs: seq<Asiento>, a: Asiento, d: int)
    ensures SumaMontos(DelDia(xs + [a], d)) == SumaMontos(DelDia(xs, d)) + (if a.dia == d then a.monto else 0)
  {
    assert (xs + [a])[..|xs|] == xs;
    if a.dia == d {
      SumaMontosAppend(DelDia(xs, d), a);
    } else {
      assert DelDia(xs + [a], d) == DelDia(xs, d) + [];
      assert DelDia(xs, d) + [] == DelDia(xs, d);
    }
  }

  /** One more record changes the breakdown only in the slot of its day. */
  lemma PorDiaAgregar(fechas: seq<int>, xs: seq<Asiento>, a: Asiento)
    requires Distinct(fechas)
    ensures a.dia in fechas ==>
              PorDia(fechas, xs + [a]) == PorDia(fechas, xs)[IndexOf(fechas, a.dia) :=
                                                           PorDia(fechas, xs)[IndexOf(fechas, a.dia)] + a.monto]
    ensures a.dia !in fechas ==> PorDia(fechas, xs + [a]) == PorDia(fechas, xs)
  {
    forall i | 0 <= i < |fechas|
      ensures SumaMontos(DelDia(xs + [a], fechas[i]))
              == SumaMontos(DelDia(xs, fechas[i])) + (if a.dia == fechas[i] then a.monto else 0)
    {
      DelDiaAgregar(xs, a, fechas[i]);
    }
  }

  /** One turn of the loop in `Acumular` extends the breakdown of `xs` to
      the breakdown of `xs + [a]`. */
  lemma PasoDeAcumular(fechas: seq<int>, xs: seq<Asiento>, a: Asiento, antes: seq<int>, despues: seq<int>)
    requires Distinct(fechas) && antes == PorDia(fechas, xs)
    requires a.dia in fechas ==>
               despues == antes[IndexOf(fechas, a.dia) := antes[IndexOf(fechas, a.dia)] + a.monto]
    requires a.dia !in fechas ==> despues == antes
    ensures despues == PorDia(fechas, xs + [a])
  {
    PorDiaAgregar(fechas, xs, a);
  }

  /** A record whose day is listed adds its amount to the breakdown's sum:
      `antes` and `despues` are the breakdowns without and with it. */
  lemma SumaPorDiaAgregar(fechas: seq<int>, xs: seq<Asiento>, a: Asiento, antes: seq<int>, despues: seq<int>)
    requires Distinct(fechas) && a.dia in fechas
    requires antes == PorDia(fechas, xs) && despues == PorDia(fechas, xs + [a])
    ensures Sum(despues) == Sum(antes) + a.monto
  {
    var k := IndexOf(fechas, a.dia);
    PorDiaAgregar(fechas, xs, a);
    SumUpdate(antes, k, a.monto);
  }

  /** When every record's day is listed, the breakdown adds up to the sum of
      all amounts. */
  lemma {:induction false} SumaPorDia(fechas: seq<int>, xs: seq<Asiento>)
    requires Distinct(fechas)
    requires forall a :: a in xs ==> a.dia in fechas
    ensures Sum(PorDia(fechas, xs)) == SumaMontos(xs)
  {
    if xs == [] {
      assert PorDia(fechas, xs) == Zeros(|fechas|);
      SumZeros(|fechas|);
    } else {
      var ys, a := xs[..|xs| - 1], xs[|xs| - 1];
      assert xs == ys + [a];
      assert a in xs;
      assert forall b :: b in ys ==> b in xs;
      SumaPorDia(fechas, ys);
      SumaPorDiaAgregar(fechas, ys, a, PorDia(fechas, ys), PorDia(fechas, xs));
      SumaMontosAppend(ys, a);
    }
  }

  // ---------------------------------------------------------------------
  // Properties of the recompute

  lemma DiasDeReservas(reservas: seq<ReservaDeMesa>, mes: ValidDate, d: int)
    ensures d in Dias(AsientosDeReservas(ReservasDelMes(reservas, mes)))
            <==> exists r :: r in reservas && EnMes(r.fechaReg, mes) && r.fechaReg.day == d
  {
    var rs := ReservasDelMes(reservas, mes);
    var ds := Dias(AsientosDeReservas(rs));
    if d in ds {
      var i :| 0 <= i < |ds| && ds[i] == d;
      assert rs[i] in rs;
    }
    if exists r :: r in reservas && EnMes(r.fechaReg, mes) && r.fechaReg.day == d {
      var r :| r in reservas && EnMes(r.fechaReg, mes) && r.fechaReg.day == d;
      assert r in rs;
      var i :| 0 <= i < |rs| && rs[i] == r;
      assert ds[i] == d;
    }
  }

  lemma DiasDeVentas(ventas: seq<RegistroDeVenta>, mes: ValidDate, d: int)
    ensures d in Dias(AsientosDeVentas(VentasDelMes(ventas, mes)))
            <==> exists v :: v in ventas && EnMes(v.fechaVenta, mes) && v.fechaVenta.day == d
  {
    var vs := VentasDelMes(ventas, mes);
    var ds := Dias(AsientosDeVentas(vs));
    if d in ds {
      var i :| 0 <= i < |ds| && ds[i] == d;
      assert vs[i] in vs;
    }
    if exists v :: v in ventas && EnMes(v.fechaVenta, mes) && v.fechaVenta.day == d {
      var v :| v in ventas && EnMes(v.fechaVenta, mes) && v.fechaVenta.day == d;
      assert v in vs;
      var i :| 0 <= i < |vs| && vs[i] == v;
      assert ds[i] == d;
    }
  }

  /** `fechas` is strictly ascending (so free of duplicates) and lists
      exactly the days of the month on which at least one reservation or
      sale was registered. */
  lemma ResumirFechas(mes: ValidDate, reservas: seq<ReservaDeMesa>, ventas: seq<RegistroDeVenta>)
    ensures StrictlyIncreasing(Resumir(mes, reservas, ventas).fechas)
    ensures forall d :: d in Resumir(mes, reservas, ventas).fechas <==>
              (exists r :: r in reservas && EnMes(r.fechaReg, mes) && r.fechaReg.day == d) ||
              (exists v :: v in ventas && EnMes(v.fechaVenta, mes) && v.fechaVenta.day == d)
  {
    var r := AsientosDeReservas(ReservasDelMes(reservas, mes));
    var v := AsientosDeVentas(VentasDelMes(ventas, mes));
    var fechas := Resumir(mes, reservas, ventas).fechas;
    assert Elements(fechas) == Elements(Dias(r) + Dias(v));
    forall d
      ensures d in fechas <==>
              (exists r :: r in reservas && EnMes(r.fechaReg, mes) && r.fechaReg.day == d) ||
              (exists v :: v in ventas && EnMes(v.fechaVenta, mes) && v.fechaVenta.day == d)
    {
      assert d in fechas <==> d in Elements(fechas);
      assert d in Dias(r) + Dias(v) <==> d in Dias(r) || d in Dias(v);
      DiasDeReservas(reservas, mes, d);
      DiasDeVentas(ventas, mes, d);
    }
  }

  /** After a recompute the two breakdown lists run in step with `fechas`,
      each adds up to its category's profit, and the grand total is the sum
      of the two profits. */
  lemma ResumirSumas(mes: ValidDate, reservas: seq<ReservaDeMesa>, ventas: seq<RegistroDeVenta>)
    ensures var s := Resumir(mes, reservas, ventas);
      && |s.gananciasReservas| == |s.fechas| && |s.gananciasVentas| == |s.fechas|
      && Sum(s.gananciasReservas) == s.gananciaReservas
      && Sum(s.gananciasVentas) == s.gananciaRegistrosVenta
      && s.gananciaTotal == s.gananciaReservas + s.gananciaRegistrosVenta
  {
    var r := AsientosDeReservas(ReservasDelMes(reservas, mes));
    var v := AsientosDeVentas(VentasDelMes(ventas, mes));
    var fechas := Resumir(mes, reservas, ventas).fechas;
    StrictlyIncreasingIsDistinct(fechas);
    assert Elements(fechas) == Elements(Dias(r) + Dias(v));
    forall a | a in r ensures a.dia in fechas {
      var i :| 0 <= i < |r| && r[i] == a;
      assert (Dias(r) + Dias(v))[i] == a.dia;
      assert a.dia in Elements(Dias(r) + Dias(v));
    }
    forall a | a in v ensures a.dia in fechas {
      var i :| 0 <= i < |v| && v[i] == a;
      assert (Dias(r) + Dias(v))[|r| + i] == a.dia;
      assert a.dia in Elements(Dias(r) + Dias(v));
    }
    SumaPorDia(fechas, r);
    SumaPorDia(fechas, v);
  }

  /** Filtering a table extended by more rows filters the two parts. */
  lemma {:induction false} ReservasDelMesConcat(a: seq<ReservaDeMesa>, b: seq<ReservaDeMesa>, mes: ValidDate)
    ensures ReservasDelMes(a + b, mes) == ReservasDelMes(a, mes) + ReservasDelMes(b, mes)
  {
    if b == [] {
      assert a + b == a;
    } else {
      var ys, x := b[..|b| - 1], b[|b| - 1];
      assert a + b == (a + ys) + [x];
      ReservasDelMesConcat(a, ys, mes);
    }
  }

  lemma {:induction false} VentasDelMesConcat(a: seq<RegistroDeVenta>, b: seq<RegistroDeVenta>, mes: ValidDate)
    ensures VentasDelMes(a + b, mes) == VentasDelMes(a, mes) + VentasDelMes(b, mes)
  {
    if b == [] {
      assert a + b == a;
    } else {
      var ys, x := b[..|b| - 1], b[|b| - 1];
      assert a + b == (a + ys) + [x];
      VentasDelMesConcat(a, ys, mes);
    }
  }

  /** Any number of records registered in other months, added to the
      tables, leave the aggregate untouched. */
  lemma ResumirIgnoraOtrosMeses(mes: ValidDate, reservas: seq<ReservaDeMesa>, ventas: seq<RegistroDeVenta>,
                                otrasReservas: seq<ReservaDeMesa>, otrasVentas: seq<RegistroDeVenta>)
    requires forall r :: r in otrasReservas ==> !EnMes(r.fechaReg, mes)
    requires forall v :: v in otrasVentas ==> !EnMes(v.fechaVenta, mes)
    ensures Resumir(mes, reservas + otrasReservas, ventas + otrasVentas) == Resumir(mes, reservas, ventas)
  {
    ReservasDelMesConcat(reservas, otrasReservas, mes);
    VentasDelMesConcat(ventas, otrasVentas, mes);
    EmptyWithoutMembers(ReservasDelMes(otrasReservas, mes));
    EmptyWithoutMembers(VentasDelMes(otrasVentas, mes));
    assert ReservasDelMes(reservas, mes) + [] == ReservasDelMes(reservas, mes);
    assert VentasDelMes(ventas, mes) + [] == VentasDelMes(ventas, mes);
  }

  /** `count()`: the number of reservations of the month is the number of
      table positions holding one. */
  lemma {:induction false} CuentaReservasDelMes(reservas: seq<ReservaDeMesa>, mes: ValidDate)
    ensures |ReservasDelMes(reservas, mes)| == |set i | 0 <= i < |reservas| && EnMes(reservas[i].fechaReg, mes)|
  {
    var todas := set i | 0 <= i < |reservas| && EnMes(reservas[i].fechaReg, mes);
    if reservas == [] {
      assert todas == {};
    } else {
      var ys, x := reservas[..|reservas| - 1], reservas[|reservas| - 1];
      CuentaReservasDelMes(ys, mes);
      var previas := set i | 0 <= i < |ys| && EnMes(ys[i].fechaReg, mes);
      assert ReservasDelMes(reservas, mes) == ReservasDelMes(ys, mes) + (if EnMes(x.fechaReg, mes) then [x] else []);
      assert forall i :: i in todas && i != |ys| ==> i in previas;
      assert previas <= todas && |ys| !in previas;
      if EnMes(x.fechaReg, mes) {
        assert todas == previas + {|ys|};
      } else {
        assert todas == previas;
      }
    }
  }


  lemma {:induction false} CuentaVentasDelMes(ventas: seq<RegistroDeVenta>, mes: ValidDate)
    ensures |VentasDelMes(ventas, mes)| == |set i | 0 <= i < |ventas| && EnMes(ventas[i].fechaVenta, mes)|
  {
    var todas := set i | 0 <= i < |ventas| && EnMes(ventas[i].fechaVenta, mes);
    if ventas == [] {
      assert todas == {};
    } else {
      var ys, x := ventas[..|ventas| - 1], ventas[|ventas| - 1];
      CuentaVentasDelMes(ys, mes);
      var previas := set i | 0 <= i < |ys| && EnMes(ys[i].fechaVenta, mes);
      assert VentasDelMes(ventas, mes) == VentasDelMes(ys, mes) + (if EnMes(x.fechaVenta, mes) then [x] else []);
      assert forall i :: i in todas && i != |ys| ==> i in previas;
      assert previas <= todas && |ys| !in previas;
      if EnMes(x.fechaVenta, mes) {
        assert todas == previas + {|ys|};
      } else {
        assert todas == previas;
      }
    }
  }


  /** `total_reservas` and `total_registros_venta` count the table rows
      dated in the month. */
  lemma ResumirTotales(mes: ValidDate, reservas: seq<ReservaDeMesa>, ventas: seq<RegistroDeVenta>)
    ensures Resumir(mes, reservas, ventas).totalReservas
            == |set i | 0 <= i < |reservas| && EnMes(reservas[i].fechaReg, mes)|
    ensures Resumir(mes, reservas, ventas).totalRegistrosVenta
            == |set i | 0 <= i < |ventas| && EnMes(ventas[i].fechaVenta, mes)|
  {
    CuentaReservasDelMes(reservas, mes);
    CuentaVentasDelMes(ventas, mes);
  }

  /** One more reservation of the month, as the save hook stores it, raises
      the count by one and the reservation and total profits by its price;
      the sales figures stay, and its day is listed. */
  lemma ResumirNuevaReserva(mes: ValidDate, reservas: seq<ReservaDeMesa>, ventas: seq<RegistroDeVenta>,
                            r: ReservaDeMesa)
    requires EnMes(r.fechaReg, mes)
    ensures var antes, despues := Resumir(mes, reservas, ventas), Resumir(mes, reservas + [r], ventas);
      && despues.totalReservas == antes.totalReservas + 1
      && despues.gananciaReservas == antes.gananciaReservas + r.precio
      && despues.totalRegistrosVenta == antes.totalRegistrosVenta
      && despues.gananciaRegistrosVenta == antes.gananciaRegistrosVenta
      && despues.gananciaTotal == antes.gananciaTotal + r.precio
      && r.fechaReg.day in despues.fechas
  {
    var rs := ReservasDelMes(reservas, mes);
    assert (reservas + [r])[..|reservas|] == reservas;
    assert ReservasDelMes(reservas + [r], mes) == rs + [r];
    assert AsientosDeReservas(rs + [r]) == AsientosDeReservas(rs) + [Asiento(r.fechaReg.day, r.precio)];
    SumaMontosAppend(AsientosDeReservas(rs), Asiento(r.fechaReg.day, r.precio));
    ResumirFechas(mes, reservas + [r], ventas);
    assert r in reservas + [r];
  }

  /** One more sale of the month raises the sale count by one and the sale
      and total profits by its total; the reservation figures stay, and its
      day is listed. */
  lemma ResumirNuevaVenta(mes: ValidDate, reservas: seq<ReservaDeMesa>, ventas: seq<RegistroDeVenta>,
                          v: RegistroDeVenta)
    requires EnMes(v.fechaVenta, mes)
    ensures var antes, despues := Resumir(mes, reservas, ventas), Resumir(mes, reservas, ventas + [v]);
      && despues.totalRegistrosVenta == antes.totalRegistrosVenta + 1
      && despues.gananciaRegistrosVenta == antes.gananciaRegistrosVenta + v.total
      && despues.totalReservas == antes.totalReservas
      && despues.gananciaReservas == antes.gananciaReservas
      && despues.gananciaTotal == antes.gananciaTotal + v.total
      && v.fechaVenta.day in despues.fechas
  {
    var vs := VentasDelMes(ventas, mes);
    assert (ventas + [v])[..|ventas|] == ventas;
    assert VentasDelMes(ventas + [v], mes) == vs + [v];
    assert AsientosDeVentas(vs + [v]) == AsientosDeVentas(vs) + [Asiento(v.fechaVenta.day, v.total)];
    SumaMontosAppend(AsientosDeVentas(vs), Asiento(v.fechaVenta.day, v.total));
    ResumirFechas(mes, reservas, ventas + [v]);
    assert v in ventas + [v];
  }

  lemma EmptyWithoutMembers<T>(s: seq<T>)
    ensures (forall x :: x !in s) ==> s == []
  {
    if s != [] {
      assert s[0] in s;
    }
  }

  /** A month without records yields zero counts, zero sums and empty
      lists, whatever other months hold. */
  lemma ResumirMesVacio(mes: ValidDate, reservas: seq<ReservaDeMesa>, ventas: seq<RegistroDeVenta>)
    requires forall r :: r in reservas ==> !EnMes(r.fechaReg, mes)
    requires forall v :: v in ventas ==> !EnMes(v.fechaVenta, mes)
    ensures Resumir(mes, reservas, ventas) == Resumen(0, 0, 0, 0, 0, [], [], [])
  {
    var rs := ReservasDelMes(reservas, mes);
    var vs := VentasDelMes(ventas, mes);
    EmptyWithoutMembers(rs);
    EmptyWithoutMembers(vs);
    assert Dias(AsientosDeReservas(rs)) + Dias(AsientosDeVentas(vs)) == [];
  }

  /** A month with two reservations of 150.00 and 50.00 registered on day
      5 and a sale of 200.00 on day 10. */
  const MesEjemplo: ValidDate := Date(2024, 3, 1)
  const ReservasEjemplo := [
    ReservaDeMesa(1, 2, 4, Date(2024, 3, 5), 15000, Some(Hora(20, 0, 0)), None, Date(2024, 3, 5)),
    ReservaDeMesa(2, 4, 7, Date(2024, 3, 6), 5000, Some(Hora(13, 30, 0)), None, Date(2024, 3, 5))]
  const VentasEjemplo := [RegistroDeVenta(1, {3}, {}, {}, 20000, Date(2024, 3, 10))]

  /** The example's recompute gives the days [5, 10], breakdowns
      [200.00, 0] and [0, 200.00], and a total of 400.00. */
  lemma ResumirEjemplo()
    ensures Resumir(MesEjemplo, ReservasEjemplo, VentasEjemplo)
            == Resumen(2, 1, 20000, 20000, 40000, [5, 10], [20000, 0], [0, 20000])
  {
    EjemploFiltros();
    var r := AsientosDeReservas(ReservasEjemplo);
    var v := AsientosDeVentas(VentasEjemplo);
    assert r == [Asiento(5, 15000), Asiento(5, 5000)];
    assert v == [Asiento(10, 20000)];
    assert Dias(r) + Dias(v) == [5, 5, 10];
    EjemploFechas();
    EjemploDesglose();
  }

  lemma EjemploFiltros()
    ensures ReservasDelMes(ReservasEjemplo, MesEjemplo) == ReservasEjemplo
    ensures VentasDelMes(VentasEjemplo, MesEjemplo) == VentasEjemplo
  {
    var r1, r2, v1 := ReservasEjemplo[0], ReservasEjemplo[1], VentasEjemplo[0];
    assert ReservasEjemplo == [r1, r2];
    assert [r1, r2][..1] == [r1] && [r1][..0] == [] && [v1][..0] == [];
    assert ReservasDelMes([r1], MesEjemplo) == [r1];
  }

  lemma EjemploFechas()
    ensures SortedSet([5, 5, 10]) == [5, 10]
  {
    assert [5, 5, 10][..2] == [5, 5] && [5, 5][..1] == [5] && [5][..0] == [];
    assert SortedSet([5]) == [5];
    assert SortedSet([5, 5]) == [5];
  }

  lemma EjemploDesglose()
    ensures PorDia([5, 10], [Asiento(5, 15000), Asiento(5, 5000)]) == [20000, 0]
    ensures PorDia([5, 10], [Asiento(10, 20000)]) == [0, 20000]
    ensures SumaMontos([Asiento(5, 15000), Asiento(5, 5000)]) == 20000
    ensures SumaMontos([Asiento(10, 20000)]) == 20000
  {
    var r := [Asiento(5, 15000), Asiento(5, 5000)];
    var v := [Asiento(10, 20000)];
    assert r[..1] == [Asiento(5, 15000)] && r[..1][..0] == [] && v[..0] == [];
    assert DelDia(r, 5) == r && DelDia(r, 10) == [];
    assert DelDia(v, 5) == [] && DelDia(v, 10) == v;
    assert SumaMontos(r) == 20000;
  }

  // ---------------------------------------------------------------------
  // The aggregate object

  /** The per-month profit aggregate. `mes` is its unique key (a first day
      of a month) and is never reassigned; the other fields are overwritten
      by every recompute. */
  class GananciaMes {
    const mes: ValidDate
    var totalReservas: nat
    var totalRegistrosVenta: nat
    var gananciaReservas: int
    var gananciaRegistrosVenta: int
    var gananciaTotal: int
    var fechas: seq<int>
    var gananciasReservas: seq<int>
    var gananciasVentas: seq<int>

    function Estado(): Resumen
      reads this
    {
      Resumen(totalReservas, totalRegistrosVenta, gananciaReservas, gananciaRegistrosVenta,
              gananciaTotal, fechas, gananciasReservas, gananciasVentas)
    }

    /** A new row: counts and sums at their defaults of 0 and empty lists. */
    constructor (mes: ValidDate)
      ensures this.mes == mes
      ensures Estado() == Resumen(0, 0, 0, 0, 0, [], [], [])
    {
      this.mes := mes;
      totalReservas, totalRegistrosVenta := 0, 0;
      gananciaReservas, gananciaRegistrosVenta, gananciaTotal := 0, 0, 0;
      fechas, gananciasReservas, gananciasVentas := [], [], [];
    }

    /** `actualizar_ganancias`: recomputes every field from the source rows
        of month `mes`. The date argument is accepted and ignored, so the
        outcome is a function of `mes` and the two tables alone (and a second
        recompute over unchanged tables gives the same state). */
    method ActualizarGanancias(reservas: seq<ReservaDeMesa>, ventas: seq<RegistroDeVenta>,
                               fechaReg: Option<ValidDate>)
      modifies this
      ensures Estado() == Resumir(mes, reservas, ventas)
    {
      var rs := ReservasDelMes(reservas, mes);
      totalReservas := |rs|;
      var r := AsientosDeReservas(rs);
      gananciaReservas := SumaMontos(r);

      var vs := VentasDelMes(ventas, mes);
      totalRegistrosVenta := |vs|;
      var v := AsientosDeVentas(vs);
      gananciaRegistrosVenta := SumaMontos(v);

      gananciaTotal := gananciaReservas + gananciaRegistrosVenta;

      fechas := SortedSet(Dias(r) + Dias(v));
      StrictlyIncreasingIsDistinct(fechas);
      gananciasReservas := Acumular(fechas, r);
      gananciasVentas := Acumular(fechas, v);
    }
  }

  // ---------------------------------------------------------------------
  // The database and the save hooks

  datatype ValidationError = ValidationError(mensaje: string)

  /** The two source tables and the aggregates, one per month key. */
  class BaseDeDatos {
    var reservas: seq<ReservaDeMesa>
    var ventas: seq<RegistroDeVenta>
    var ganancias: map<ValidDate, GananciaMes>

    /** Every aggregate sits under its own month key, a first of month, and
        every stored reservation has a time. */
    ghost predicate Valid()
      reads this
    {
      && (forall k :: k in ganancias ==> ganancias[k].mes == k && k.day == 1)
      && (forall r :: r in reservas ==> r.hora.Some?)
    }

    constructor ()
      ensures Valid()
      ensures reservas == [] && ventas == [] && ganancias == map[]
    {
      reservas, ventas, ganancias := [], [], map[];
    }

    /** `actualizar_o_crear_ganancia_mes`: truncates the date to its month
        key, fetches the aggregate for that key or creates it, and recomputes
        it from the current tables. Nothing else changes. */
    method ActualizarOCrearGananciaMes(fechaReg: ValidDate) returns (g: GananciaMes)
      requires Valid()
      modifies this, if FirstOfMonth(fechaReg) in ganancias then {ganancias[FirstOfMonth(fechaReg)]} else {}
      ensures Valid()
      ensures reservas == old(reservas) && ventas == old(ventas)
      ensures g.mes == FirstOfMonth(fechaReg)
      ensures ganancias == old(ganancias)[g.mes := g]
      ensures g.mes in old(ganancias) ==> g == old(ganancias)[g.mes]
      ensures g.mes !in old(ganancias) ==> fresh(g)
      ensures g.Estado() == Resumir(g.mes, reservas, ventas)
    {
      var mes := FirstOfMonth(fechaReg);
      if mes in ganancias {
        g := ganancias[mes];
      } else {
        g := new GananciaMes(mes);
        ganancias := ganancias[mes := g];
      }
      g.ActualizarGanancias(reservas, ventas, Some(fechaReg));
    }

    /** `ReservaDeMesa.save` for a new row: a missing time is rejected before
        anything is stored; otherwise the row is stored with today's date as
        its registration date and that month's aggregate is recomputed. */
    method GuardarReserva(r: ReservaDeMesa, hoy: ValidDate) returns (error: Option<ValidationError>)
      requires Valid()
      modifies this, if FirstOfMonth(hoy) in ganancias then {ganancias[FirstOfMonth(hoy)]} else {}
      ensures Valid()
      ensures r.hora.None? ==>
                && error == Some(ValidationError("La hora no puede ser nula."))
                && unchanged(this)
                && (FirstOfMonth(hoy) in ganancias ==> unchanged(ganancias[FirstOfMonth(hoy)]))
      ensures r.hora.Some? ==>
                && error == None
                && reservas == old(reservas) + [r.(fechaReg := hoy)]
                && ventas == old(ventas)
                && FirstOfMonth(hoy) in ganancias
                && ganancias == old(ganancias)[FirstOfMonth(hoy) := ganancias[FirstOfMonth(hoy)]]
                && ganancias[FirstOfMonth(hoy)].Estado() == Resumir(FirstOfMonth(hoy), reservas, ventas)
    {
      if r.hora.None? {
        return Some(ValidationError("La hora no puede ser nula."));
      }
      reservas := reservas + [r.(fechaReg := hoy)];
      var g := ActualizarOCrearGananciaMes(hoy);
      error := None;
    }

    /** `RegistroDeVenta.save` for a new row: the row is stored with today's
        date as its sale date and that month's aggregate is recomputed. */
    method GuardarVenta(v: RegistroDeVenta, hoy: ValidDate)
      requires Valid()
      modifies this, if FirstOfMonth(hoy) in ganancias then {ganancias[FirstOfMonth(hoy)]} else {}
      ensures Valid()
      ensures ventas == old(ventas) + [v.(fechaVenta := hoy)]
      ensures reservas == old(reservas)
      ensures FirstOfMonth(hoy) in ganancias
      ensures ganancias == old(ganancias)[FirstOfMonth(hoy) := ganancias[FirstOfMonth(hoy)]]
      ensures ganancias[FirstOfMonth(hoy)].Estado() == Resumir(FirstOfMonth(hoy), reservas, ventas)
    {
      ventas := ventas + [v.(fechaVenta := hoy)];
      var g := ActualizarOCrearGananciaMes(hoy);
    }
  }

  // ---------------------------------------------------------------------
  // Comment authorship

  const Anonimo: string := "Anónimo"

  /** A customer comment: written either by a registered user or under a
      free-text client name. */
  class ComentarioCalificacion {
    var usuario: Option<nat>
    var nombreCliente: Option<string>
    var calificacion: int
    var comentario: string

    constructor (usuario: Option<nat>, nombreCliente: Option<string>, calificacion: int, comentario: string)
      ensures this.usuario == usuario && this.nombreCliente == nombreCliente
      ensures this.calificacion == calificacion && this.comentario == comentario
    {
      this.usuario := usuario;
      this.nombreCliente := nombreCliente;
      this.calificacion := calificacion;
      this.comentario := comentario;
    }

    /** `save`: a user's comment loses the client name; an anonymous one with
        a blank name is signed 'Anónimo'; a named one has no user. Afterwards
        exactly one of the two is set, and a set name is not blank. */
    method Guardar()
      modifies this`usuario, this`nombreCliente
      ensures old(usuario).Some? ==> usuario == old(usuario) && nombreCliente == None
      ensures old(usuario).None? && (old(nombreCliente) == None || old(nombreCliente) == Some("")) ==>
                usuario == None && nombreCliente == Some(Anonimo)
      ensures old(usuario).None? && old(nombreCliente).Some? && old(nombreCliente) != Some("") ==>
                usuario == None && nombreCliente == old(nombreCliente)
      ensures usuario.Some? != nombreCliente.Some?
      ensures nombreCliente.Some? ==> nombreCliente.value != ""
    {
      if usuario.Some? {
        nombreCliente := None;
      } else if nombreCliente == None || nombreCliente == Some("") {
        nombreCliente := Some(Anonimo);
      } else {
        usuario := None;
      }
    }
  }

  // ---------------------------------------------------------------------
  // Upload path

  /** ASCII `str.lower()`. */
  function Lower(s: string): (r: string)
    ensures |r| == |s|
    ensures forall i :: 0 <= i < |s| ==> !('A' <= r[i] <= 'Z')
    ensures forall i :: 0 <= i < |s| && 'A' <= s[i] <= 'Z' ==> r[i] == (s[i] as int + 32) as char
    ensures forall i :: 0 <= i < |s| && !('A' <= s[i] <= 'Z') ==> r[i] == s[i]
  {
    seq(|s|, i requires 0 <= i < |s| =>
      if 'A' <= s[i] <= 'Z' then (s[i] as int + 32) as char else s[i])
  }

  /** POSIX `os.path.join(a, b)`: an absolute `b` replaces `a`; otherwise a
      separator is inserted unless `a` is empty or already ends in one. */
  function Join(a: string, b: string): (r: string)
    ensures |r| >= |b| && r[|r| - |b|..] == b
    ensures |b| > 0 && b[0] == '/' ==> r == b
    ensures !(|b| > 0 && b[0] == '/') ==>
              |r| >= |a| && r[..|a|] == a &&
              |r| == |a| + |b| + (if a == [] || a[|a| - 1] == '/' then 0 else 1) &&
              (a != [] ==> r[|r| - |b| - 1] == '/')
  {
    if |b| > 0 && b[0] == '/' then b
    else if a == [] || a[|a| - 1] == '/' then a + b
    else a + "/" + b
  }

  /** A Python class name: non-empty and free of '/'. */
  predicate NombreDeClase(nombre: string)
  {
    |nombre| > 0 && forall i :: 0 <= i < |nombre| ==> nombre[i] != '/'
  }

  /** `get_upload_path`: `images/<model name in lower case>/<filename>`,
      except that an absolute filename is kept as it is. */
  function RutaDeSubida(nombreModelo: string, archivo: string): (ruta: string)
    ensures |ruta| >= |archivo| && ruta[|ruta| - |archivo|..] == archivo
    ensures |archivo| > 0 && archivo[0] == '/' ==> ruta == archivo
    ensures !(|archivo| > 0 && archivo[0] == '/') && NombreDeClase(nombreModelo) ==>
              ruta == "images/" + Lower(nombreModelo) + "/" + archivo
    ensures !(|archivo| > 0 && archivo[0] == '/') && nombreModelo == [] ==> ruta == "images/" + archivo
  {
    var nombre := Lower(nombreModelo);
    var carpeta := Join("images", nombre);
    assert NombreDeClase(nombreModelo) ==> nombre[|nombre| - 1] != '/' && carpeta == "images/" + nombre;
    Join(carpeta, archivo)
  }
}
