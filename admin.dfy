/** The administrative console (tabla/admin.py) as far as it holds logic:
    which admin class each model is registered with, the permission
    overrides, the extra list column of the full-CRUD admins, the month
    label, and the chart data of the current month shown above the profit
    list. */
module Admin {
  import opened Wrappers
  import opened Dates
  import Money
  import M = Models

  // ---------------------------------------------------------------------
  // Admin classes and permissions

  datatype ClaseAdmin =
    | BasicModelAdmin
    | FullCRUDModelAdmin
    | ComentarioCalificacionAdmin  // a BasicModelAdmin that also refuses change
    | GananciaMesAdmin             // a BasicModelAdmin that also refuses change and delete

  datatype Modelo =
    | Usuario | Categoria | NotificacionMovil | ReservaDeMesa | Plato | PromocionDePlato
    | ComentarioCalificacion | Cliente | RegistroDeVenta | Bebida | Entrada | Contacto | GananciaMes

  /** The `admin.site.register` table: six models are registered with
      `FullCRUDModelAdmin`, the comments and the profit aggregates with
      their own admins, and every other model with `BasicModelAdmin`. */
  function AdminDe(m: Modelo): (c: ClaseAdmin)
    ensures c == FullCRUDModelAdmin <==> m in {Categoria, NotificacionMovil, Plato, PromocionDePlato, Bebida, Entrada}
    ensures c == ComentarioCalificacionAdmin <==> m == ComentarioCalificacion
    ensures c == GananciaMesAdmin <==> m == GananciaMes
    ensures c == BasicModelAdmin <==> m in {Usuario, ReservaDeMesa, Cliente, RegistroDeVenta, Contacto}
  {
    match m
    case Categoria | NotificacionMovil | Plato | PromocionDePlato | Bebida | Entrada => FullCRUDModelAdmin
    case ComentarioCalificacion => ComentarioCalificacionAdmin
    case GananciaMes => GananciaMesAdmin
    case Usuario | ReservaDeMesa | Cliente | RegistroDeVenta | Contacto => BasicModelAdmin
  }

  /** `has_add_permission`: only the full-CRUD admins allow adding; every
      admin derived from `BasicModelAdmin` alone refuses. */
  function PuedeAgregar(c: ClaseAdmin): (permitido: bool)
    ensures permitido <==> c == FullCRUDModelAdmin
  {
    match c
    case FullCRUDModelAdmin => true
    case BasicModelAdmin | ComentarioCalificacionAdmin | GananciaMesAdmin => false
  }

  /** `has_change_permission`: the comment and profit admins always refuse;
      the others defer to the framework's check of the user's permissions,
      given here as `porUsuario`. */
  function PuedeCambiar(c: ClaseAdmin, porUsuario: bool): (permitido: bool)
    ensures c == GananciaMesAdmin || c == ComentarioCalificacionAdmin ==> !permitido
    ensures c == BasicModelAdmin || c == FullCRUDModelAdmin ==> permitido == porUsuario
  {
    match c
    case GananciaMesAdmin | ComentarioCalificacionAdmin => false
    case BasicModelAdmin | FullCRUDModelAdmin => porUsuario
  }

  /** `has_delete_permission`: the profit admin always refuses; the others
      defer to the framework's check of the user's permissions. */
  function PuedeBorrar(c: ClaseAdmin, porUsuario: bool): (permitido: bool)
    ensures c == GananciaMesAdmin ==> !permitido
    ensures c != GananciaMesAdmin ==> permitido == porUsuario
  {
    if c == GananciaMesAdmin then false else porUsuario
  }

  /** The profit aggregates can be listed only: no add, change or delete for
      any user; and adding is possible exactly for the six models
      registered with `FullCRUDModelAdmin`. */
  lemma PermisosRegistrados(porUsuario: bool)
    ensures !PuedeAgregar(AdminDe(GananciaMes))
    ensures !PuedeCambiar(AdminDe(GananciaMes), porUsuario)
    ensures !PuedeBorrar(AdminDe(GananciaMes), porUsuario)
    ensures forall m :: PuedeAgregar(AdminDe(m)) <==>
              m in {Categoria, NotificacionMovil, Plato, PromocionDePlato, Bebida, Entrada}
  {
  }

  /** `get_list_display`: a full-CRUD admin shows its columns followed by the
      'crud_buttons' column; the others show their columns unchanged. */
  function ListaDeColumnas(c: ClaseAdmin, listDisplay: seq<string>): (columnas: seq<string>)
    ensures c == FullCRUDModelAdmin ==>
              |columnas| == |listDisplay| + 1 && columnas[..|listDisplay|] == listDisplay
              && columnas[|listDisplay|] == "crud_buttons"
    ensures c != FullCRUDModelAdmin ==> columnas == listDisplay
  {
    if c == FullCRUDModelAdmin then listDisplay + ["crud_buttons"] else listDisplay
  }

  /** `mes_anio`: the English month name, a space, and the year. */
  function MesAnio(mes: ValidDate): (etiqueta: string)
    ensures |etiqueta| > |MonthName(mes.month)| + 1
    ensures MonthNumber(etiqueta[..|MonthName(mes.month)|]) == mes.month
    ensures etiqueta[|MonthName(mes.month)|] == ' '
    ensures Money.AllDigits(etiqueta[|MonthName(mes.month)| + 1..])
    ensures Money.StringToNat(etiqueta[|MonthName(mes.month)| + 1..]) == mes.year
    ensures etiqueta[|MonthName(mes.month)| + 1..] == Money.NatToString(mes.year)
  {
    var nombre := MonthName(mes.month);
    var anio := Money.NatToString(mes.year);
    MonthNameRoundTrip(mes.month);
    Money.NatToStringRoundTrip(mes.year);
    assert (nombre + " " + anio)[..|nombre|] == nombre;
    assert (nombre + " " + anio)[|nombre| + 1..] == anio;
    nombre + " " + anio
  }

  // ---------------------------------------------------------------------
  // Chart data of the current month

  /** A source row as the chart query sees it: its date and amount. */
  datatype Movimiento = Movimiento(fecha: ValidDate, monto: int)

  function MovimientosDeReservas(rs: seq<M.ReservaDeMesa>): (ms: seq<Movimiento>)
    ensures |ms| == |rs|
    ensures forall i :: 0 <= i < |rs| ==> ms[i] == Movimiento(rs[i].fechaReg, rs[i].precio)
  {
    seq(|rs|, i requires 0 <= i < |rs| => Movimiento(rs[i].fechaReg, rs[i].precio))
  }

  function MovimientosDeVentas(vs: seq<M.RegistroDeVenta>): (ms: seq<Movimiento>)
    ensures |ms| == |vs|
    ensures forall i :: 0 <= i < |vs| ==> ms[i] == Movimiento(vs[i].fechaVenta, vs[i].total)
  {
    seq(|vs|, i requires 0 <= i < |vs| => Movimiento(vs[i].fechaVenta, vs[i].total))
  }

  /** `filter(fecha__range=(primero, ultimo))`: both ends included. */
  function EnRango(ms: seq<Movimiento>, primero: ValidDate, ultimo: ValidDate): (r: seq<Movimiento>)
    ensures |r| <= |ms|
    ensures forall x :: x in r <==> x in ms && LessOrEqual(primero, x.fecha) && LessOrEqual(x.fecha, ultimo)
  {
    if ms == [] then []
    else
      var last := ms[|ms| - 1];
      assert ms == ms[..|ms| - 1] + [last];
      EnRango(ms[..|ms| - 1], primero, ultimo)
        + (if LessOrEqual(primero, last.fecha) && LessOrEqual(last.fecha, ultimo) then [last] else [])
  }

  /** The range filter keeps every row dated inside the range as many times
      as the rows hold it, and no other. */
  lemma {:induction false} EnRangoMultiplicidad(ms: seq<Movimiento>, primero: ValidDate, ultimo: ValidDate)
    ensures forall x :: multiset(EnRango(ms, primero, ultimo))[x]
                        == if LessOrEqual(primero, x.fecha) && LessOrEqual(x.fecha, ultimo) then multiset(ms)[x] else 0
  {
    if ms != [] {
      var ys, x := ms[..|ms| - 1], ms[|ms| - 1];
      assert ms == ys + [x];
      EnRangoMultiplicidad(ys, primero, ultimo);
      assert EnRango(ms, primero, ultimo)
             == EnRango(ys, primero, ultimo) + (if LessOrEqual(primero, x.fecha) && LessOrEqual(x.fecha, ultimo) then [x] else []);
    }
  }

  /** `Sum(...)` over the rows dated `d`. */
  function TotalDelDia(ms: seq<Movimiento>, d: Date): int
  {
    if ms == [] then 0
    else TotalDelDia(ms[..|ms| - 1], d) + (if ms[|ms| - 1].fecha == d then ms[|ms| - 1].monto else 0)
  }

  /** `.values(fecha).annotate(total_dia=Sum(...))`: one group per date that
      occurs, with the total of that date. */
  function Agrupar(ms: seq<Movimiento>): (grupos: map<ValidDate, int>)
    ensures forall d :: d in grupos <==> exists x :: x in ms && x.fecha == d
    ensures forall d :: d in grupos ==> grupos[d] == TotalDelDia(ms, d)
  {
    map d | d in (set x | x in ms :: x.fecha) :: TotalDelDia(ms, d)
  }

  lemma {:induction false} TotalDelDiaSinMovimientos(ms: seq<Movimiento>, d: Date)
    requires forall x :: x in ms ==> x.fecha != d
    ensures TotalDelDia(ms, d) == 0
  {
    if ms != [] {
      TotalDelDiaSinMovimientos(ms[..|ms| - 1], d);
    }
  }

  /** Restricting the rows to a date range keeps the total of every date
      inside the range. */
  lemma {:induction false} TotalDelDiaEnRango(ms: seq<Movimiento>, primero: ValidDate, ultimo: ValidDate, d: ValidDate)
    requires LessOrEqual(primero, d) && LessOrEqual(d, ultimo)
    ensures TotalDelDia(EnRango(ms, primero, ultimo), d) == TotalDelDia(ms, d)
  {
    if ms != [] {
      var ys, x := ms[..|ms| - 1], ms[|ms| - 1];
      TotalDelDiaEnRango(ys, primero, ultimo, d);
      var r := EnRango(ys, primero, ultimo);
      if LessOrEqual(primero, x.fecha) && LessOrEqual(x.fecha, ultimo) {
        assert EnRango(ms, primero, ultimo) == r + [x];
        TotalDelDiaAgregar(r, x, d);
      } else {
        assert EnRango(ms, primero, ultimo) == r + [];
        assert r + [] == r;
      }
    }
  }

  /** The chart's three lists: the day numbers 1..n of the current month and
      the two per-day totals, each as long as the month. */
  datatype DatosGrafico = DatosGrafico(fechas: seq<int>, gananciasReservas: seq<int>, gananciasVentas: seq<int>)

  datatype ErrorDeFecha = OverflowError

  /** One of the two `for` loops of `changelist_view`: over a zero-filled list
      as long as the month, each date group overwrites the slot `day - 1`
      with its total. Groups arrive in no particular order. */
  method ColocarPorDia(grupos: map<ValidDate, int>, ultimo: ValidDate) returns (g: seq<int>)
    requires forall f :: f in grupos ==> f.year == ultimo.year && f.month == ultimo.month && f.day <= ultimo.day
    ensures |g| == ultimo.day
    ensures forall i :: 0 <= i < ultimo.day ==>
              g[i] == if Date(ultimo.year, ultimo.month, i + 1) in grupos
                      then grupos[Date(ultimo.year, ultimo.month, i + 1)] else 0
  {
    var y, m := ultimo.year, ultimo.month;
    var a := new int[ultimo.day](_ => 0);
    var pendientes := grupos.Keys;
    while pendientes != {}
      invariant pendientes <= grupos.Keys
      invariant a.Length == ultimo.day
      invariant forall i :: 0 <= i < a.Length ==>
                  a[i] == if Date(y, m, i + 1) in grupos && Date(y, m, i + 1) !in pendientes
                          then grupos[Date(y, m, i + 1)] else 0
      decreases |pendientes|
    {
      var f :| f in pendientes;
      assert f == Date(y, m, f.day);
      a[f.day - 1] := grupos[f];
      pendientes := pendientes - {f};
    }
    g := a[..];
  }

  /** The groups of the rows dated inside one month's range all fall in
      that month. */
  lemma GruposDelMes(ms: seq<Movimiento>, primero: ValidDate, ultimo: ValidDate)
    requires primero.year == ultimo.year && primero.month == ultimo.month && primero.day == 1
    ensures forall f :: f in Agrupar(EnRango(ms, primero, ultimo)) ==>
              f.year == ultimo.year && f.month == ultimo.month && f.day <= ultimo.day
  {
  }

  /** The value the chart places for date `d` of the range is the total of
      all rows dated `d`, whether or not a group exists for it. */
  lemma ValorDelDia(ms: seq<Movimiento>, primero: ValidDate, ultimo: ValidDate, d: ValidDate)
    requires LessOrEqual(primero, d) && LessOrEqual(d, ultimo)
    ensures var grupos := Agrupar(EnRango(ms, primero, ultimo));
      (if d in grupos then grupos[d] else 0) == TotalDelDia(ms, d)
  {
    var enRango := EnRango(ms, primero, ultimo);
    TotalDelDiaEnRango(ms, primero, ultimo, d);
    if d !in Agrupar(enRango) {
      TotalDelDiaSinMovimientos(enRango, d);
    }
  }

  /** A column laid out by `ColocarPorDia` from the groups of one month's
      range holds, for each day, the total of all rows of that day. */
  lemma ColumnaDelMes(ms: seq<Movimiento>, primero: ValidDate, ultimo: ValidDate, g: seq<int>)
    requires primero.year == ultimo.year && primero.month == ultimo.month && primero.day == 1
    requires |g| == ultimo.day
    requires var grupos := Agrupar(EnRango(ms, primero, ultimo));
      forall i :: 0 <= i < ultimo.day ==>
        g[i] == if Date(ultimo.year, ultimo.month, i + 1) in grupos
                then grupos[Date(ultimo.year, ultimo.month, i + 1)] else 0
    ensures forall i :: 0 <= i < ultimo.day ==> g[i] == TotalDelDia(ms, Date(ultimo.year, ultimo.month, i + 1))
  {
    forall i | 0 <= i < ultimo.day
      ensures g[i] == TotalDelDia(ms, Date(ultimo.year, ultimo.month, i + 1))
    {
      var d: ValidDate := Date(ultimo.year, ultimo.month, i + 1);
      ValorDelDia(ms, primero, ultimo, d);
    }
  }

  /** `GananciaMesAdmin.changelist_view`: computes the first and last day of
      today's month, groups the reservations and sales dated in that range by
      date, and lays the totals out by day. Slot `i` of each list ends up as
      the total of the rows dated on day `i + 1` of the month, 0 when there
      are none. In December 9999 the date arithmetic overflows. */
  method DatosDelMesActual(hoy: ValidDate, reservas: seq<M.ReservaDeMesa>, ventas: seq<M.RegistroDeVenta>)
    returns (r: Result<DatosGrafico, ErrorDeFecha>)
    ensures r.Err? <==> hoy.year == MaxYear && hoy.month == 12
    ensures r.Ok? ==>
              var n := DaysInMonth(hoy.year, hoy.month);
              && |r.value.fechas| == n && |r.value.gananciasReservas| == n && |r.value.gananciasVentas| == n
              && (forall i :: 0 <= i < n ==> r.value.fechas[i] == i + 1)
              && (forall i :: 0 <= i < n ==> r.value.gananciasReservas[i]
                                              == TotalDelDia(MovimientosDeReservas(reservas), Date(hoy.year, hoy.month, i + 1)))
              && (forall i :: 0 <= i < n ==> r.value.gananciasVentas[i]
                                              == TotalDelDia(MovimientosDeVentas(ventas), Date(hoy.year, hoy.month, i + 1)))
  {
    var primero := FirstOfMonth(hoy);
    LastDayOfMonthCorrect(hoy);
    var fin := LastDayOfMonth(hoy);
    if fin.None? {
      return Err(OverflowError);
    }
    var ultimo := fin.value;
    var movReservas := MovimientosDeReservas(reservas);
    var movVentas := MovimientosDeVentas(ventas);
    var gruposReservas := Agrupar(EnRango(movReservas, primero, ultimo));
    var gruposVentas := Agrupar(EnRango(movVentas, primero, ultimo));
    var fechas := seq(ultimo.day, i requires 0 <= i < ultimo.day => i + 1);
    GruposDelMes(movReservas, primero, ultimo);
    GruposDelMes(movVentas, primero, ultimo);
    var gr := ColocarPorDia(gruposReservas, ultimo);
    var gv := ColocarPorDia(gruposVentas, ultimo);
    ColumnaDelMes(movReservas, primero, ultimo, gr);
    ColumnaDelMes(movVentas, primero, ultimo, gv);
    r := Ok(DatosGrafico(fechas, gr, gv));
  }

  // ---------------------------------------------------------------------
  // The chart against the stored aggregate

  lemma TotalDelDiaAgregar(ms: seq<Movimiento>, x: Movimiento, d: Date)
    ensures TotalDelDia(ms + [x], d) == TotalDelDia(ms, d) + (if x.fecha == d then x.monto else 0)
  {
    assert (ms + [x])[..|ms|] == ms;
  }

  lemma {:induction false} ReservasDelMesUltima(rs: seq<M.ReservaDeMesa>, mes: ValidDate)
    requires rs != []
    ensures var x := rs[|rs| - 1];
      && M.AsientosDeReservas(M.ReservasDelMes(rs, mes))
         == M.AsientosDeReservas(M.ReservasDelMes(rs[..|rs| - 1], mes))
            + (if M.EnMes(x.fechaReg, mes) then [M.Asiento(x.fechaReg.day, x.precio)] else [])
    ensures var x := rs[|rs| - 1];
      MovimientosDeReservas(rs) == MovimientosDeReservas(rs[..|rs| - 1]) + [Movimiento(x.fechaReg, x.precio)]
  {
  }

  lemma {:induction false} VentasDelMesUltima(vs: seq<M.RegistroDeVenta>, mes: ValidDate)
    requires vs != []
    ensures var x := vs[|vs| - 1];
      && M.AsientosDeVentas(M.VentasDelMes(vs, mes))
         == M.AsientosDeVentas(M.VentasDelMes(vs[..|vs| - 1], mes))
            + (if M.EnMes(x.fechaVenta, mes) then [M.Asiento(x.fechaVenta.day, x.total)] else [])
    ensures var x := vs[|vs| - 1];
      MovimientosDeVentas(vs) == MovimientosDeVentas(vs[..|vs| - 1]) + [Movimiento(x.fechaVenta, x.total)]
  {
  }

  /** For any date of month `mes`, the chart's reservation total is the
      amount the recompute assigns to that day. */
  lemma {:induction false} TotalDelDiaReservas(reservas: seq<M.ReservaDeMesa>, mes: ValidDate, d: int)
    ensures TotalDelDia(MovimientosDeReservas(reservas), Date(mes.year, mes.month, d))
            == M.SumaMontos(M.DelDia(M.AsientosDeReservas(M.ReservasDelMes(reservas, mes)), d))
  {
    if reservas != [] {
      var ys, x := reservas[..|reservas| - 1], reservas[|reservas| - 1];
      TotalDelDiaReservas(ys, mes, d);
      ReservasDelMesUltima(reservas, mes);
      TotalDelDiaAgregar(MovimientosDeReservas(ys), Movimiento(x.fechaReg, x.precio), Date(mes.year, mes.month, d));
      var a := M.AsientosDeReservas(M.ReservasDelMes(ys, mes));
      if M.EnMes(x.fechaReg, mes) {
        M.DelDiaAgregar(a, M.Asiento(x.fechaReg.day, x.precio), d);
      } else {
        assert a + [] == a;
      }
    }
  }

  /** For any date of month `mes`, the chart's sales total is the amount the
      recompute assigns to that day. */
  lemma {:induction false} TotalDelDiaVentas(ventas: seq<M.RegistroDeVenta>, mes: ValidDate, d: int)
    ensures TotalDelDia(MovimientosDeVentas(ventas), Date(mes.year, mes.month, d))
            == M.SumaMontos(M.DelDia(M.AsientosDeVentas(M.VentasDelMes(ventas, mes)), d))
  {
    if ventas != [] {
      var ys, x := ventas[..|ventas| - 1], ventas[|ventas| - 1];
      TotalDelDiaVentas(ys, mes, d);
      VentasDelMesUltima(ventas, mes);
      TotalDelDiaAgregar(MovimientosDeVentas(ys), Movimiento(x.fechaVenta, x.total), Date(mes.year, mes.month, d));
      var a := M.AsientosDeVentas(M.VentasDelMes(ys, mes));
      if M.EnMes(x.fechaVenta, mes) {
        M.DelDiaAgregar(a, M.Asiento(x.fechaVenta.day, x.total), d);
      } else {
        assert a + [] == a;
      }
    }
  }

  /** The chart of the current month and that month's aggregate agree: the
      chart's total for each day the aggregate lists is the aggregate's
      breakdown entry for that day, and every other day of the month has no
      reservations or sales, so its chart total is 0. */
  lemma GraficoCoincideConResumen(hoy: ValidDate, reservas: seq<M.ReservaDeMesa>, ventas: seq<M.RegistroDeVenta>)
    ensures var s := M.Resumir(FirstOfMonth(hoy), reservas, ventas);
      && (forall i :: 0 <= i < |s.fechas| ==>
            && TotalDelDia(MovimientosDeReservas(reservas), Date(hoy.year, hoy.month, s.fechas[i]))
               == s.gananciasReservas[i]
            && TotalDelDia(MovimientosDeVentas(ventas), Date(hoy.year, hoy.month, s.fechas[i]))
               == s.gananciasVentas[i])
      && (forall d :: 1 <= d <= DaysInMonth(hoy.year, hoy.month) && d !in s.fechas ==>
            && TotalDelDia(MovimientosDeReservas(reservas), Date(hoy.year, hoy.month, d)) == 0
            && TotalDelDia(MovimientosDeVentas(ventas), Date(hoy.year, hoy.month, d)) == 0)
  {
    var mes := FirstOfMonth(hoy);
    var s := M.Resumir(mes, reservas, ventas);
    M.ResumirFechas(mes, reservas, ventas);
    forall i | 0 <= i < |s.fechas|
      ensures TotalDelDia(MovimientosDeReservas(reservas), Date(hoy.year, hoy.month, s.fechas[i]))
              == s.gananciasReservas[i]
      ensures TotalDelDia(MovimientosDeVentas(ventas), Date(hoy.year, hoy.month, s.fechas[i]))
              == s.gananciasVentas[i]
    {
      TotalDelDiaReservas(reservas, mes, s.fechas[i]);
      TotalDelDiaVentas(ventas, mes, s.fechas[i]);
    }
    forall d | 1 <= d <= DaysInMonth(hoy.year, hoy.month) && d !in s.fechas
      ensures TotalDelDia(MovimientosDeReservas(reservas), Date(hoy.year, hoy.month, d)) == 0
      ensures TotalDelDia(MovimientosDeVentas(ventas), Date(hoy.year, hoy.month, d)) == 0
    {
      var fecha := Date(hoy.year, hoy.month, d);
      forall x | x in MovimientosDeReservas(reservas) ensures x.fecha != fecha {
        var k :| 0 <= k < |reservas| && MovimientosDeReservas(reservas)[k] == x;
        assert reservas[k] in reservas;
      }
      forall x | x in MovimientosDeVentas(ventas) ensures x.fecha != fecha {
        var k :| 0 <= k < |ventas| && MovimientosDeVentas(ventas)[k] == x;
        assert ventas[k] in ventas;
      }
      TotalDelDiaSinMovimientos(MovimientosDeReservas(reservas), fecha);
      TotalDelDiaSinMovimientos(MovimientosDeVentas(ventas), fecha);
    }
  }
}
