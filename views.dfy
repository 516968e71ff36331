/** The profit report (tabla/views.py): the table of the PDF built from a
    monthly aggregate, the download handler that recomputes the aggregate
    first, and the name of the downloaded file. */
module Views {
  import opened Wrappers
  import opened Dates
  import opened Secuencias
  import opened Money
  import M = Models
  import Admin

  // ---------------------------------------------------------------------
  // The report table

  /** The first cell of a row: a heading text or a day number. */
  datatype Celda = Texto(texto: string) | Numero(valor: int)

  /** A table row: the first cell and the reservation, sales and total
      columns, each a text cell. */
  datatype Fila = Fila(primera: Celda, reservas: string, ventas: string, total: string)

  const Encabezado: Fila := Fila(Texto("Día"), "Reservas", "Ventas", "Total")

  /** A row whose three money cells show `x`, `y` and their sum. */
  function FilaDeMontos(primera: Celda, x: int, y: int): Fila
  {
    Fila(primera, Soles(x), Soles(y), Soles(x + y))
  }

  /** The row of one day: the day number and its amounts as money cells,
      the last being the sum of the other two. */
  function FilaDia(fecha: int, reserva: int, venta: int): Fila
  {
    FilaDeMontos(Numero(fecha), reserva, venta)
  }

  /** The closing row: the sums of the whole breakdown lists and their sum. */
  function FilaTotales(gr: seq<int>, gv: seq<int>): Fila
  {
    FilaDeMontos(Texto("Total"), Sum(gr), Sum(gv))
  }

  function Min3(a: nat, b: nat, c: nat): (m: nat)
    ensures m <= a && m <= b && m <= c && (m == a || m == b || m == c)
  {
    if a <= b && a <= c then a else if b <= c then b else c
  }

  /** Row `i + 1` of `data` is the row of the `i`-th listed day. */
  predicate FilaDelDia(data: seq<Fila>, fechas: seq<int>, gr: seq<int>, gv: seq<int>, i: int)
  {
    && 0 <= i < |fechas| && i < |gr| && i < |gv| && i + 1 < |data|
    && data[i + 1] == FilaDia(fechas[i], gr[i], gv[i])
  }

  /** The table `generar_pdf` lays out for the lists `fechas`,
      `ganancias_reservas` and `ganancias_ventas`: the header, one row per
      position of their `zip` (as many as the shortest list), and the totals
      row. */
  predicate EsTabla(data: seq<Fila>, fechas: seq<int>, gr: seq<int>, gv: seq<int>)
  {
    var n := Min3(|fechas|, |gr|, |gv|);
    && |data| == n + 2
    && data[0] == Encabezado
    && (forall i :: 0 <= i < n ==> FilaDelDia(data, fechas, gr, gv, i))
    && data[n + 1] == FilaTotales(gr, gv)
  }

  /** The table-building part of `generar_pdf`: header row, a loop that
      appends one row per day, then the totals row. */
  method GenerarTabla(fechas: seq<int>, gr: seq<int>, gv: seq<int>) returns (data: seq<Fila>)
    ensures EsTabla(data, fechas, gr, gv)
  {
    data := [Encabezado];
    var n := Min3(|fechas|, |gr|, |gv|);
    var i := 0;
    while i < n
      invariant 0 <= i <= n
      invariant |data| == i + 1 && data[0] == Encabezado
      invariant forall j :: 0 <= j < i ==> FilaDelDia(data, fechas, gr, gv, j)
    {
      var fila := FilaDia(fechas[i], gr[i], gv[i]);
      forall j | 0 <= j <= i ensures FilaDelDia(data + [fila], fechas, gr, gv, j) {
        if j < i {
          assert FilaDelDia(data, fechas, gr, gv, j);
        }
      }
      data := data + [fila];
      i := i + 1;
    }
    var totales := FilaTotales(gr, gv);
    forall j | 0 <= j < n ensures FilaDelDia(data + [totales], fechas, gr, gv, j) {
      assert FilaDelDia(data, fechas, gr, gv, j);
    }
    data := data + [totales];
  }

  // ---------------------------------------------------------------------
  // Reading the table back

  /** The amount a money cell shows; 0 for text that is not a money cell. */
  function Importe(s: string): int
  {
    match ParseSoles(s)
    case Some(v) => v
    case None => 0
  }

  /** The amounts of column `k` (1 reservations, 2 sales, 3 total). */
  function Columna(filas: seq<Fila>, k: int): (c: seq<int>)
    requires 1 <= k <= 3
    ensures |c| == |filas|
  {
    seq(|filas|, i requires 0 <= i < |filas| =>
      Importe(if k == 1 then filas[i].reservas else if k == 2 then filas[i].ventas else filas[i].total))
  }

  lemma ImporteSoles(x: int)
    ensures Importe(Soles(x)) == x
  {
    SolesRoundTrip(x);
  }

  lemma CeldaReservas(primera: Celda, x: int, y: int)
    ensures ParseSoles(FilaDeMontos(primera, x, y).reservas) == Some(x)
  {
    SolesRoundTrip(x);
  }

  lemma CeldaVentas(primera: Celda, x: int, y: int)
    ensures ParseSoles(FilaDeMontos(primera, x, y).ventas) == Some(y)
  {
    SolesRoundTrip(y);
  }

  lemma CeldaTotal(primera: Celda, x: int, y: int)
    ensures ParseSoles(FilaDeMontos(primera, x, y).total) == Some(x + y)
  {
    SolesRoundTrip(x + y);
  }

  /** Every row of money cells shows its two amounts, and its total cell
      shows their sum. */
  lemma FilaCuadra(primera: Celda, x: int, y: int)
    ensures var f := FilaDeMontos(primera, x, y);
      && ParseSoles(f.reservas) == Some(x)
      && ParseSoles(f.ventas) == Some(y)
      && ParseSoles(f.total) == Some(x + y)
  {
    CeldaReservas(primera, x, y);
    CeldaVentas(primera, x, y);
    CeldaTotal(primera, x, y);
  }

  /** Read down the day rows, the three money columns give back the two
      lists and their element-by-element sum. */
  lemma ColumnasDeTabla(data: seq<Fila>, fechas: seq<int>, gr: seq<int>, gv: seq<int>)
    requires EsTabla(data, fechas, gr, gv)
    requires |fechas| == |gr| == |gv|
    ensures |data| == |gr| + 2
    ensures Columna(data[1..|data| - 1], 1) == gr
    ensures Columna(data[1..|data| - 1], 2) == gv
    ensures Columna(data[1..|data| - 1], 3) == AddPointwise(gr, gv)
  {
    var filas := data[1..|data| - 1];
    forall i | 0 <= i < |fechas| ensures filas[i] == FilaDeMontos(Numero(fechas[i]), gr[i], gv[i]) {
      assert FilaDelDia(data, fechas, gr, gv, i);
    }
    ColumnaReservas(filas, fechas, gr, gv);
    ColumnaVentas(filas, fechas, gr, gv);
    ColumnaTotal(filas, fechas, gr, gv);
  }

  lemma ColumnaReservas(filas: seq<Fila>, fechas: seq<int>, gr: seq<int>, gv: seq<int>)
    requires |filas| == |fechas| == |gr| == |gv|
    requires forall i :: 0 <= i < |fechas| ==> filas[i] == FilaDeMontos(Numero(fechas[i]), gr[i], gv[i])
    ensures Columna(filas, 1) == gr
  {
    forall i | 0 <= i < |filas| ensures Columna(filas, 1)[i] == gr[i] {
      CeldaReservas(Numero(fechas[i]), gr[i], gv[i]);
    }
  }

  lemma ColumnaVentas(filas: seq<Fila>, fechas: seq<int>, gr: seq<int>, gv: seq<int>)
    requires |filas| == |fechas| == |gr| == |gv|
    requires forall i :: 0 <= i < |fechas| ==> filas[i] == FilaDeMontos(Numero(fechas[i]), gr[i], gv[i])
    ensures Columna(filas, 2) == gv
  {
    forall i | 0 <= i < |filas| ensures Columna(filas, 2)[i] == gv[i] {
      CeldaVentas(Numero(fechas[i]), gr[i], gv[i]);
    }
  }

  lemma ColumnaTotal(filas: seq<Fila>, fechas: seq<int>, gr: seq<int>, gv: seq<int>)
    requires |filas| == |fechas| == |gr| == |gv|
    requires forall i :: 0 <= i < |fechas| ==> filas[i] == FilaDeMontos(Numero(fechas[i]), gr[i], gv[i])
    ensures Columna(filas, 3) == AddPointwise(gr, gv)
  {
    forall i | 0 <= i < |filas| ensures Columna(filas, 3)[i] == AddPointwise(gr, gv)[i] {
      CeldaTotal(Numero(fechas[i]), gr[i], gv[i]);
    }
  }

  /** When the three lists are equally long (as after every recompute), the
      totals row shows, in each money column, the sum of that column over the
      day rows, and its grand total is the sum of its other two cells. */
  lemma TablaCuadra(data: seq<Fila>, fechas: seq<int>, gr: seq<int>, gv: seq<int>)
    requires EsTabla(data, fechas, gr, gv)
    requires |fechas| == |gr| == |gv|
    ensures |data| == |fechas| + 2
    ensures data[|data| - 1].primera == Texto("Total")
    ensures forall k :: 1 <= k <= 3 ==>
              Columna(data, k)[|data| - 1] == Sum(Columna(data[1..|data| - 1], k))
    ensures ParseSoles(data[|data| - 1].total)
            == Some(Importe(data[|data| - 1].reservas) + Importe(data[|data| - 1].ventas))
  {
    ColumnasDeTabla(data, fechas, gr, gv);
    SumAddPointwise(gr, gv);
    TotalesCuadra(gr, gv, Sum(gr), Sum(gv));
  }

  /** With no active days the table is the header and a totals row of
      zeros. */
  lemma TablaVacia(data: seq<Fila>)
    requires EsTabla(data, [], [], [])
    ensures data == [Encabezado, Fila(Texto("Total"), "s/ 0.00", "s/ 0.00", "s/ 0.00")]
  {
    SolesZero();
  }

  // ---------------------------------------------------------------------
  // The download

  /** What `generar_pdf` renders, apart from the chart image: the chart
      title and the table. */
  datatype Reporte = Reporte(titulo: string, tabla: seq<Fila>)

  /** `generar_pdf`: the chart title names the aggregate's month, and the
      table is laid out from its three lists. */
  method GenerarPdf(g: M.GananciaMes) returns (reporte: Reporte)
    ensures reporte.titulo == "Ganancias de " + Admin.MesAnio(g.mes)
    ensures EsTabla(reporte.tabla, g.fechas, g.gananciasReservas, g.gananciasVentas)
  {
    var titulo := "Ganancias de " + Admin.MesAnio(g.mes);
    var data := GenerarTabla(g.fechas, g.gananciasReservas, g.gananciasVentas);
    reporte := Reporte(titulo, data);
  }

  /** The download name: `Ganancias_<month name>_<year>.pdf`. */
  function NombreArchivo(mes: ValidDate): (nombre: string)
    ensures |nombre| > 14 && nombre[..10] == "Ganancias_" && nombre[|nombre| - 4..] == ".pdf"
  {
    "Ganancias_" + MonthName(mes.month) + "_" + NatToString(mes.year) + ".pdf"
  }

  /** The position of the last '_' in `s`, or -1. */
  function UltimoGuion(s: string): (k: int)
    ensures -1 <= k < |s|
    ensures k >= 0 ==> s[k] == '_'
    ensures forall j :: k < j < |s| ==> s[j] != '_'
  {
    if s == [] then -1
    else if s[|s| - 1] == '_' then |s| - 1
    else UltimoGuion(s[..|s| - 1])
  }

  /** Reads the (year, month) back from a download name; None when the text
      does not have that shape. */
  function LeerNombreArchivo(nombre: string): Option<(int, int)>
  {
    if |nombre| >= 14 && nombre[..10] == "Ganancias_" && nombre[|nombre| - 4..] == ".pdf" then
      var cuerpo := nombre[10..|nombre| - 4];
      var k := UltimoGuion(cuerpo);
      if 0 <= k && AllDigits(cuerpo[k + 1..]) && MonthNumber(cuerpo[..k]) != 0 then
        Some((StringToNat(cuerpo[k + 1..]), MonthNumber(cuerpo[..k])))
      else None
    else None
  }

  lemma {:induction false} UltimoGuionSinGuiones(a: string, b: string)
    requires forall i :: 0 <= i < |b| ==> b[i] != '_'
    ensures UltimoGuion(a + "_" + b) == |a|
  {
    var s := a + "_" + b;
    if b != [] {
      assert s[..|s| - 1] == a + "_" + b[..|b| - 1];
      UltimoGuionSinGuiones(a, b[..|b| - 1]);
    }
  }

  /** The file name determines the month and year of the report. */
  lemma NombreArchivoRoundTrip(mes: ValidDate)
    ensures LeerNombreArchivo(NombreArchivo(mes)) == Some((mes.year, mes.month))
  {
    var nombreMes := MonthName(mes.month);
    var anio := NatToString(mes.year);
    var nombre := NombreArchivo(mes);
    var cuerpo := nombreMes + "_" + anio;
    assert nombre == "Ganancias_" + cuerpo + ".pdf";
    assert nombre[10..|nombre| - 4] == cuerpo;
    UltimoGuionSinGuiones(nombreMes, anio);
    assert cuerpo[..|nombreMes|] == nombreMes;
    assert cuerpo[|nombreMes| + 1..] == anio;
    MonthNameRoundTrip(mes.month);
    NatToStringRoundTrip(mes.year);
  }

  /** The report of March 2024 downloads as `Ganancias_March_2024.pdf`. */
  lemma NombreArchivoEjemplo()
    ensures NombreArchivo(Date(2024, 3, 1)) == "Ganancias_March_2024.pdf"
  {
    assert NatToString(2024) == "2024" by {
      assert NatToString(2) == "2";
      assert NatToString(20) == "20";
      assert NatToString(202) == "202";
    }
  }

  /** `descargar_reporte_pdf`: recomputes the aggregate from the current
      source rows, renders it, and names the file after its month. */
  method DescargarReportePdf(g: M.GananciaMes, reservas: seq<M.ReservaDeMesa>, ventas: seq<M.RegistroDeVenta>)
    returns (reporte: Reporte, nombre: string)
    modifies g
    ensures g.Estado() == M.Resumir(g.mes, reservas, ventas)
    ensures EsTabla(reporte.tabla, g.fechas, g.gananciasReservas, g.gananciasVentas)
    ensures reporte.titulo == "Ganancias de " + Admin.MesAnio(g.mes)
    ensures nombre == NombreArchivo(g.mes)
  {
    g.ActualizarGanancias(reservas, ventas, None);
    reporte := GenerarPdf(g);
    nombre := NombreArchivo(g.mes);
  }

  /** A report rendered right after a recompute lists one row per active
      day of the month, in the order of `fechas`, and its totals row repeats
      the aggregate's stored profits. */
  lemma ReporteCuadraConResumen(mes: ValidDate, reservas: seq<M.ReservaDeMesa>, ventas: seq<M.RegistroDeVenta>,
                                data: seq<Fila>)
    requires var s := M.Resumir(mes, reservas, ventas);
      EsTabla(data, s.fechas, s.gananciasReservas, s.gananciasVentas)
    ensures var s := M.Resumir(mes, reservas, ventas);
      && |data| == |s.fechas| + 2
      && (forall i :: 0 <= i < |s.fechas| ==> data[i + 1].primera == Numero(s.fechas[i]))
      && ParseSoles(data[|data| - 1].reservas) == Some(s.gananciaReservas)
      && ParseSoles(data[|data| - 1].ventas) == Some(s.gananciaRegistrosVenta)
      && ParseSoles(data[|data| - 1].total) == Some(s.gananciaTotal)
  {
    var s := M.Resumir(mes, reservas, ventas);
    M.ResumirSumas(mes, reservas, ventas);
    ReporteDeListas(data, s.fechas, s.gananciasReservas, s.gananciasVentas,
                    s.gananciaReservas, s.gananciaRegistrosVenta);
  }

  lemma ReporteDeListas(data: seq<Fila>, fechas: seq<int>, gr: seq<int>, gv: seq<int>, x: int, y: int)
    requires EsTabla(data, fechas, gr, gv)
    requires |fechas| == |gr| == |gv|
    requires x == Sum(gr) && y == Sum(gv)
    ensures |data| == |fechas| + 2
    ensures forall i :: 0 <= i < |fechas| ==> data[i + 1].primera == Numero(fechas[i])
    ensures ParseSoles(data[|data| - 1].reservas) == Some(x)
    ensures ParseSoles(data[|data| - 1].ventas) == Some(y)
    ensures ParseSoles(data[|data| - 1].total) == Some(x + y)
  {
    forall i | 0 <= i < |fechas| ensures data[i + 1].primera == Numero(fechas[i]) {
      assert FilaDelDia(data, fechas, gr, gv, i);
    }
    TotalesCuadra(gr, gv, x, y);
  }

  /** The totals row shows the two column sums `x` and `y` and, as grand
      total, their sum. */
  lemma TotalesCuadra(gr: seq<int>, gv: seq<int>, x: int, y: int)
    requires x == Sum(gr) && y == Sum(gv)
    ensures ParseSoles(FilaTotales(gr, gv).reservas) == Some(x)
    ensures ParseSoles(FilaTotales(gr, gv).ventas) == Some(y)
    ensures ParseSoles(FilaTotales(gr, gv).total) == Some(x + y)
  {
    FilaCuadra(Texto("Total"), x, y);
  }
}
