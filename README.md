# Monthly profit roll-up of the micari-ito restaurant back end, in Dafny

The restaurant back end keeps one `GananciaMes` row per calendar month. The
row holds the month's reservation and sale counts, their revenue sums and the
grand total. It also holds three per-day lists: the active days of the month
and, in step with them, the reservation and sale revenue of each day. Every
saved reservation or sale recomputes its month's row. The admin console draws
a per-day chart of the current month. A PDF report lists the month day by day
and is downloaded under a name derived from the month.

This project models that slice and proves what it promises. Amounts are
two-decimal fixed-point values in the source, held here exactly as whole
cents.

| file | module | contents |
|---|---|---|
| `wrappers.dfy` | `Wrappers` | `Option` and `Result` |
| `secuencias.dfy` | `Secuencias` | `sum`, `list.index`, `sorted(set(...))`, zero-filled lists, and their facts |
| `dates.dfy` | `Dates` | `datetime.date` over years 1..9999: validity, `replace(day=1)`, `± timedelta(days=n)` with `OverflowError`, the "+32 days" month-end recipe, `%B` names |
| `money.dfy` | `Money` | `f"{x:.2f}"`, the `"s/ X.YY"` money cell, `str(n)`, and readers that recover the values |
| `models.dfy` | `Models` | the records; the recompute as a function (`Resumir`) and as a method on the `GananciaMes` class; the `BaseDeDatos` class with the fetch-or-create step and the save hooks; `ComentarioCalificacion.save`; `get_upload_path` |
| `admin.dfy` | `Admin` | the admin class of each model, the permission overrides, `get_list_display`, `mes_anio`, and the current-month chart data (`changelist_view`) |
| `views.dfy` | `Views` | the table of `generar_pdf`, the download handler and its file name |

The source tables are sequences passed in (`reservas`, `ventas`). Every ORM
query becomes a filter or a sum over them. Today's date is a parameter
wherever the source reads the clock (`auto_now_add`, `date.today()`).

Imperative code stays imperative:
- The recompute (`GananciaMes.ActualizarGanancias`) assigns the fields of a
  class in place. Its two `+=` loops run over a zero-filled `array`
  (`Acumular`).
- The chart fills a zero-filled `array` slot by slot (`ColocarPorDia`).
- The report table is built by appending rows in a loop (`GenerarTabla`).

Each of these methods is proved against a specification function
(`Resumir`, `PorDia`, `TotalDelDia`, `EsTabla`). The lemmas state what the
source promises about those functions.

## Model

| member | source | states |
|---|---|---|
| Secuencias.SortedSet | tabla/models.py:214-218 | `sorted(list(set(...)))` is strictly ascending and holds exactly the values of its input |
| Secuencias.InsertSpec | tabla/models.py:214-218 | inserting one value into an ascending duplicate-free list keeps it ascending and adds exactly that value |
| Secuencias.InsertElements | tabla/models.py:214-218 | the inserted list's values are the old values plus the new one |
| Secuencias.StrictlyIncreasingUnique | tabla/models.py:214-218 | two ascending duplicate-free lists with the same values are equal, so the sorted day list is determined by its set of days |
| Secuencias.ConsIncreasing | tabla/models.py:214-218 | a head below every element of an ascending list keeps it ascending |
| Secuencias.StrictlyIncreasingIsDistinct | tabla/models.py:214-218 | an ascending list has no duplicates, so `index` finds each day's unique slot |
| Secuencias.EmptyElements | tabla/models.py:214-218 | a list is empty exactly when its set of values is empty |
| Secuencias.IndexOf | tabla/models.py:225 | `list.index(x)` returns a position holding `x`, with no earlier occurrence |
| Secuencias.Zeros | tabla/models.py:220-221 | `[0] * n` has length `n` and every slot 0 |
| Secuencias.SumZeros | tabla/models.py:220-221 | `Sum` (`sum(...)`) of a zero-filled list is 0 |
| Secuencias.SumUpdate | tabla/models.py:226 | `Sum`: `s[k] += d` raises the sum of `s` by exactly `d` |
| Secuencias.AddPointwise | tabla/views.py:147 | the day-by-day total list is as long as its inputs |
| Secuencias.SumAddPointwise | tabla/views.py:147-153 | `Sum` of the per-day totals is the sum of the two column sums |
| Dates.DaysInMonth | tabla/admin.py:131 | a month has 28 to 31 days, and February has 29 exactly in leap years |
| Dates.FirstOfMonth | tabla/models.py:194 | `replace(day=1)` keeps year and month, sets day 1, and is not after the date |
| Dates.NextDay | tabla/admin.py:130 | adding one day overflows exactly on 31 December 9999 |
| Dates.PreviousDay | tabla/admin.py:131 | subtracting one day overflows exactly on 1 January of year 1 |
| Dates.NextThenPrevious | tabla/admin.py:130-131 | subtracting a day undoes adding one |
| Dates.AddDaysWithinMonth | tabla/admin.py:130 | `AddDays` (`+ timedelta(days=n)`): adding days that stay inside the month only moves the day number |
| Dates.AddDaysIntoNextMonth | tabla/admin.py:130 | `AddDays`: adding days that run into the next month lands on the expected day of that month |
| Dates.AddDaysOverflow | tabla/admin.py:130 | `AddDays`: running past the end of December 9999 raises `OverflowError` |
| Dates.AddDaysCompose | tabla/admin.py:130 | `AddDays`: adding `m + n` days is adding `m` days and then `n` more, and an overflow in the first part is an overflow of the whole |
| Dates.LastDayOfMonthCorrect | tabla/admin.py:128-131 | `LastDayOfMonth`, the "+32 days, day 1, −1 day" recipe, fails exactly in December 9999; otherwise it gives the same year and month, day = days in the month, and the next day is the 1st of the following month |
| Dates.LastDayOfRegularMonth | tabla/admin.py:129-131 | outside December 9999 the recipe yields the month's last day, followed by the 1st of the next month |
| Dates.InMonthRange | tabla/admin.py:132-133 | the inclusive range [first day, last day] holds exactly the dates of that month |
| Dates.MonthName | tabla/admin.py:113 | `%B` gives a month name of at least three letters |
| Dates.MonthNumber | tabla/admin.py:113 | reading a month name gives 0..12 |
| Dates.MonthNameRoundTrip | tabla/admin.py:113 | the month name determines the month |
| Money.Digit | tabla/views.py:148 | a digit character has the value it stands for |
| Money.DigitValue | tabla/views.py:148 | reading a digit character gives back its digit |
| Money.NatToString | tabla/admin.py:113 | `str(n)` is a non-empty string of decimal digits with no leading zero, so with `NatToStringRoundTrip` it is the one canonical spelling of `n` |
| Money.NatToStringRoundTrip | tabla/admin.py:113 | `int(str(n)) == n` |
| Money.TwoDigitsValue | tabla/views.py:148 | the two decimals read back as their value |
| Money.ParseSolesSplit | tabla/views.py:148 | a cell `"s/ " + body + "." + dd` is read by splitting at the point |
| Money.ParseSignedNegative | tabla/views.py:148 | a leading minus negates the amount read |
| Money.ParseSignedPositive | tabla/views.py:148 | a body starting with a digit is read as unsigned |
| Money.MagnitudeRoundTrip | tabla/views.py:148 | the whole part and the two decimals of `x:.2f` give back the magnitude in cents |
| Money.SolesRoundTrip | tabla/views.py:148 | `Soles`: every money cell `f"s/ {x:.2f}"` reads back as exactly the amount `x`, negative amounts included, so different amounts never show alike |
| Money.Fixed2Forma | tabla/views.py:148 | `Fixed2` (`f"{x:.2f}"`) is a minus sign exactly for negative amounts, then at least one digit, a point and exactly two decimals |
| Money.SolesEjemplos | tabla/views.py:148 | `Soles` shows 150.00 as `s/ 150.00` and −0.05 as `s/ -0.05` |
| Money.SolesZero | tabla/views.py:154 | the zero amount shows as `s/ 0.00` |
| Models.ReservasDelMes | tabla/models.py:201 | a reservation is among the filtered ones exactly when it is in the table and registered in the aggregate's year and month |
| Models.ReservasDelMesMultiplicidad | tabla/models.py:201-202 | the filter keeps each reservation of the month as many times as the table holds it, and no other, so `count()` counts duplicates |
| Models.VentasDelMes | tabla/models.py:206 | a sale is among the filtered ones exactly when it is in the table and made in the aggregate's year and month |
| Models.VentasDelMesMultiplicidad | tabla/models.py:206-207 | the filter keeps each sale of the month as many times as the table holds it, and no other |
| Models.AsientosDeReservas | tabla/models.py:223-226 | entry `i` is the registration day and the price of reservation `i` |
| Models.AsientosDeVentas | tabla/models.py:228-231 | entry `i` is the day and the total of sale `i` |
| Models.Dias | tabla/models.py:214-218 | one day number per entry |
| Models.PorDia | tabla/models.py:220-231 | the breakdown is as long as the day list |
| Models.Acumular | tabla/models.py:220-231 | the zero-filled `+=` loop ends with slot `i` holding the total of all amounts dated on day `fechas[i]`, so same-day records add up |
| Models.PasoDeAcumular | tabla/models.py:223-226 | one loop turn extends the breakdown of the records seen so far by one record |
| Models.DelDiaAgregar | tabla/models.py:223-231 | one more record adds its amount to its own day's total and leaves every other day's total as it was |
| Models.PorDiaAgregar | tabla/models.py:223-231 | one more record changes the breakdown only in the slot of its day, by its amount; a record of an unlisted day changes nothing |
| Models.SumaMontosAppend | tabla/models.py:203 | `SumaMontos` (`aggregate(Sum(...)) or 0`): one more record adds its amount to the sum |
| Models.SumaPorDiaAgregar | tabla/models.py:223-231 | a record of a listed day adds its amount to the breakdown's sum |
| Models.SumaPorDia | tabla/models.py:223-231 | when every record's day is listed, the breakdown sums to the sum of all amounts |
| Models.DiasDeReservas | tabla/models.py:214-215 | a day is among the reservation days exactly when some reservation of the month was registered on it |
| Models.DiasDeVentas | tabla/models.py:216-217 | a day is among the sale days exactly when some sale of the month was made on it |
| Models.ResumirFechas | tabla/models.py:214-218 | after a recompute `fechas` is strictly ascending and holds exactly the days on which some reservation or sale of the month falls |
| Models.ResumirSumas | tabla/models.py:203-231 | both breakdowns are as long as `fechas`; they sum to `ganancia_reservas` and `ganancia_registros_venta`; `ganancia_total` is the sum of the two |
| Models.ResumirIgnoraOtrosMeses | tabla/models.py:201-208 | `Resumir`: any records of other months appended to the two tables leave the recompute unchanged |
| Models.ReservasDelMesConcat | tabla/models.py:201 | filtering a table extended by more rows filters the two parts and keeps table order |
| Models.VentasDelMesConcat | tabla/models.py:206 | filtering a table extended by more rows filters the two parts and keeps table order |
| Models.CuentaReservasDelMes | tabla/models.py:201-202 | the month's reservations number as many as the table positions holding a reservation of that month |
| Models.CuentaVentasDelMes | tabla/models.py:206-207 | the month's sales number as many as the table positions holding a sale of that month |
| Models.ResumirTotales | tabla/models.py:199-207 | `Resumir`: `total_reservas` and `total_registros_venta` are the numbers of table rows dated in the month |
| Models.ResumirNuevaReserva | tabla/models.py:199-218 | `Resumir`: one more reservation of the month raises the reservation count by one and the reservation and total profits by its price, leaves the sale figures, and lists its day |
| Models.ResumirNuevaVenta | tabla/models.py:199-218 | `Resumir`: one more sale of the month raises the sale count by one and the sale and total profits by its total, leaves the reservation figures, and lists its day |
| Models.EmptyWithoutMembers | tabla/models.py:203 | a list with no members is empty |
| Models.ResumirMesVacio | tabla/models.py:199-221 | a month without records gives zero counts, zero sums (`or Decimal('0.00')`) and empty lists |
| Models.ResumirEjemplo | tabla/models.py:199-231 | two reservations of 150.00 and 50.00 on day 5 and a sale of 200.00 on day 10 give days [5, 10], breakdowns [200.00, 0] and [0, 200.00], total 400.00 |
| Models.EjemploFiltros | tabla/models.py:201-206 | the example's records all fall in the example month |
| Models.EjemploFechas | tabla/models.py:214-218 | the example's days [5, 5, 10] become [5, 10] |
| Models.EjemploDesglose | tabla/models.py:220-231 | the example's breakdowns and sums |
| Models.GananciaMes.constructor | tabla/models.py:178-187 | a new row has its month key, zero counts and sums, and empty lists |
| Models.GananciaMes.ActualizarGanancias | tabla/models.py:199-233 | the new state is `Resumir` of the month and the current tables, whatever the date argument, so a second recompute over unchanged tables gives the same state |
| Models.BaseDeDatos.constructor | tabla/models.py:178-179 | an empty database is consistent |
| Models.BaseDeDatos.ActualizarOCrearGananciaMes | tabla/models.py:192-197 | the key is the date's first of month; the stored row is fetched, or a fresh row is created and stored under the key; it is recomputed; nothing else changes |
| Models.BaseDeDatos.GuardarReserva | tabla/models.py:170-174 | a reservation without a time gives `ValidationError` and changes nothing; otherwise it is stored dated today and today's month is recomputed |
| Models.BaseDeDatos.GuardarVenta | tabla/models.py:153-155 | a sale is stored dated today and today's month is recomputed |
| Models.ComentarioCalificacion.constructor | tabla/models.py:78-83 | a comment holds the given fields |
| Models.ComentarioCalificacion.Guardar | tabla/models.py:93-106 | a user's comment loses the client name; a blank name without user becomes 'Anónimo'; a named one loses the user; afterwards exactly one of the two is set and a set name is not blank |
| Models.Lower | tabla/models.py:17 | lower-casing keeps the length, turns each capital into its own lower-case letter and changes nothing else |
| Models.Join | tabla/models.py:18 | `os.path.join(a, b)` ends with `b`; an absolute `b` is returned as it is; otherwise the result starts with `a`, and exactly one '/' separates the two unless `a` is empty or already ends in '/' |
| Models.RutaDeSubida | tabla/models.py:16-18 | an absolute file name is kept as it is; otherwise the path is exactly `images/` + the lower-cased class name + `/` + the file name |
| Admin.PuedeAgregar | tabla/admin.py:21-47 | adding is allowed exactly for the full-CRUD admin |
| Admin.PuedeCambiar | tabla/admin.py:86-121 | the comment and profit admins never allow change; the others follow the user's permission |
| Admin.PuedeBorrar | tabla/admin.py:123-124 | the profit admin never allows delete; the others follow the user's permission |
| Admin.PermisosRegistrados | tabla/admin.py:158-170 | with the registrations as written, profit rows cannot be added, changed or deleted, and adding is possible exactly for the six models registered with `FullCRUDModelAdmin` |
| Admin.ListaDeColumnas | tabla/admin.py:38-39 | a full-CRUD admin shows its columns unchanged followed by 'crud_buttons'; the others show their columns |
| Admin.MesAnio | tabla/admin.py:112-113 | the label is the month name, a space and exactly `str(year)`, and both parts read back |
| Admin.AdminDe | tabla/admin.py:158-170 | the registrations: six listed models and only they get `FullCRUDModelAdmin`, comments and profit rows each their own admin, and the other five models the basic one |
| Admin.MovimientosDeReservas | tabla/admin.py:132 | row `i` is the registration date and the price of reservation `i` |
| Admin.MovimientosDeVentas | tabla/admin.py:133 | row `i` is the date and the total of sale `i` |
| Admin.EnRango | tabla/admin.py:132-133 | the range filter keeps exactly the rows dated inside the range, both ends included, and never adds rows |
| Admin.EnRangoMultiplicidad | tabla/admin.py:132-133 | the range filter keeps each row of the range as many times as the rows hold it, and no other |
| Admin.Agrupar | tabla/admin.py:132-133 | there is one group per date that occurs, with the total of that date |
| Admin.TotalDelDiaSinMovimientos | tabla/admin.py:135-140 | `TotalDelDia` (the `Sum` of a date group): a date without rows totals 0 |
| Admin.TotalDelDiaEnRango | tabla/admin.py:132-133 | restricting to a range keeps the total of every date inside it |
| Admin.TotalDelDiaAgregar | tabla/admin.py:132-133 | `TotalDelDia`: one more row adds its amount to its own date's total only |
| Admin.ColocarPorDia | tabla/admin.py:135-140 | the array is as long as the month; slot `i` holds the group of day `i + 1`, or 0 when there is none, whatever the order of the groups |
| Admin.GruposDelMes | tabla/admin.py:132-140 | every group of the month's range falls in that month, so its slot `day - 1` exists |
| Admin.ValorDelDia | tabla/admin.py:132-140 | the value placed for a date of the range is the total of all rows of that date |
| Admin.ColumnaDelMes | tabla/admin.py:132-140 | a list laid out by day from the groups of one month's range holds, for each day, the total of all rows of that day |
| Admin.DatosDelMesActual | tabla/admin.py:126-149 | fails exactly in December 9999; otherwise `fechas` is 1..days in month and slot `i` of each list is the total of the rows dated day `i + 1` of today's month |
| Admin.ReservasDelMesUltima | tabla/models.py:201 | the month's reservations, split off at the last row |
| Admin.VentasDelMesUltima | tabla/models.py:206 | the month's sales, split off at the last row |
| Admin.TotalDelDiaReservas | tabla/admin.py:132 | the chart's reservation total for a day of the month equals the recompute's total for that day |
| Admin.TotalDelDiaVentas | tabla/admin.py:133 | the chart's sale total for a day of the month equals the recompute's total for that day |
| Admin.GraficoCoincideConResumen | tabla/admin.py:132-140 | the chart of the current month agrees with that month's aggregate: the breakdown entries at the listed days, and 0 on every other day |
| Views.Min3 | tabla/views.py:146 | `zip` stops at the shortest of the three lists |
| Views.GenerarTabla | tabla/views.py:145-154 | `EsTabla`: the table is the header, one row per `zip` position showing day, reservation, sale and their sum as money cells, and the totals row of the two list sums and their sum |
| Views.Columna | tabla/views.py:145-154 | a column has one amount per row |
| Views.ImporteSoles | tabla/views.py:148 | the amount of a money cell is the amount it was made from |
| Views.CeldaReservas | tabla/views.py:148 | a row's reservation cell reads back as its reservation amount |
| Views.CeldaVentas | tabla/views.py:148 | a row's sale cell reads back as its sale amount |
| Views.CeldaTotal | tabla/views.py:147-148 | a row's total cell reads back as reservation + sale |
| Views.FilaCuadra | tabla/views.py:147-148 | all three money cells of a row read back, the total as the sum of the other two |
| Views.ColumnaReservas | tabla/views.py:146-148 | read down the day rows, the reservation column is the reservation list |
| Views.ColumnaVentas | tabla/views.py:146-148 | read down the day rows, the sale column is the sale list |
| Views.ColumnaTotal | tabla/views.py:146-148 | read down the day rows, the total column is the day-by-day sum of the two lists |
| Views.ColumnasDeTabla | tabla/views.py:145-154 | with lists of equal length, the day rows' three columns are the two lists and their day-by-day sum |
| Views.TablaCuadra | tabla/views.py:145-154 | with lists of equal length, each totals cell is the sum of its column over the day rows, and the grand total is the sum of the other two totals |
| Views.TablaVacia | tabla/views.py:145-154 | with no active days the table is the header and a totals row of `s/ 0.00` cells |
| Views.TotalesCuadra | tabla/views.py:151-154 | the totals row shows the two list sums and their sum |
| Views.GenerarPdf | tabla/views.py:103-154 | the chart title is "Ganancias de" with the month and year, and the table is laid out from the aggregate's three lists |
| Views.NombreArchivo | tabla/views.py:101 | the download name starts with `Ganancias_` and ends with `.pdf` |
| Views.UltimoGuion | tabla/views.py:101 | the result is the position of the last '_' in the name: that position holds '_' and none follows; -1 exactly when there is none |
| Views.UltimoGuionSinGuiones | tabla/views.py:101 | the year part contains no '_', so the last '_' separates month and year |
| Views.NombreArchivoRoundTrip | tabla/views.py:101 | the download name determines the report's month and year |
| Views.NombreArchivoEjemplo | tabla/views.py:101 | the March 2024 report downloads as `Ganancias_March_2024.pdf` |
| Views.DescargarReportePdf | tabla/views.py:97-101 | the aggregate is recomputed from the current tables before rendering, the table is laid out from the fresh lists, and the file is named after the month |
| Views.ReporteDeListas | tabla/views.py:145-154 | day rows follow `fechas` in order, and the totals cells read back as the two list sums and their sum |
| Views.ReporteCuadraConResumen | tabla/views.py:97-154 | a report rendered after a recompute has one row per active day, in order, and its totals cells read back as the stored `ganancia_reservas`, `ganancia_registros_venta` and `ganancia_total` |

## Left out

- Persistence is not modelled: `objects.filter/aggregate/get_or_create`, `super().save()` and the `unique=True` month key. The tables are input sequences, and the aggregates sit in a map keyed by month.
- Concurrent recomputes of the same month are not modelled: every operation runs to completion on its own.
- `Usuario.save` password hashing (tabla/models.py:28-32) is left out: it calls the framework's `make_password`/`check_password`.
- `NotificacionMovil.enviar_a_todos` (tabla/models.py:52-56) is left out: it is a create loop with no logic.
- Chart drawing, image resizing and PDF layout are left out (tabla/views.py:104-142, 156-175): matplotlib, PIL and reportlab are foreign libraries working in floating point. `Views.GenerarPdf` keeps the chart title and the table data.
- The `float(...)` conversions and `json.dumps` of the chart data (tabla/admin.py:138-147) are left out. The chart values stay exact cents.
- The `or 0` in `float(... or 0)` is not modelled as a separate case: every date group has at least one row, so its sum is never null.
- The HTML buttons (`format_html`, `reverse`), `get_urls` routing, `get_list_display_links` and the `show_add_button` context of `FullCRUDModelAdmin.changelist_view` are left out: they produce markup or framework wiring.
- The second, unregistered `GananciaMesAdmin` in tabla/views.py:83-95 is left out: it is never used.
- `%B` gives the English month names, as in the C locale; other locales are not modelled. `%Y` is written as plain decimal digits.
- `Models.Join` models POSIX `os.path.join` only; the Windows rules of `ntpath.join` (drive letters, backslash separators) are not modelled.
- `str.lower()` is modelled for ASCII letters only. Python class names in this repository are ASCII.
- `Models.RutaDeSubida`: the exact path is stated for names a Python class can have (non-empty, without '/'). For other strings only the ending and the absolute-file case are stated; `Models.Join` still gives the result.
- `Admin.PuedeCambiar`, `Admin.PuedeBorrar`: where a class does not override the method, the framework's own check of the user's permissions is a parameter (`porUsuario`).
- `Views.DescargarReportePdf`: `get_object_or_404` is left out; the aggregate is passed in, and the not-found response belongs to the framework.
- `Models.BaseDeDatos.GuardarReserva`, `Models.BaseDeDatos.GuardarVenta`: the hooks are modelled for newly created rows (`auto_now_add` sets the date to today). Saving an edited row also triggers a recompute in the source; that case is not modelled.
- `DecimalField(max_digits=...)` limits on stored amounts are not modelled: amounts are unbounded integers of cents.
- The `__str__` methods (among them `GananciaMes.__str__` and the misspelt `ComentarioCalificacion._str_`) are left out: they only format display text.
- tabla/serializers.py and tabla/urls.py are not part of this model: they are declarative serializer and router wiring.
