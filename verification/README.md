# QuantoDeu: verified model of the domain core

QuantoDeu is a personal-finance backend in Go. This project models, in Dafny, the parts of it where a
cent, a day or a failed login can go wrong, and proves what the program promises about them for all
inputs, all dates and all runs.

| file | what it models |
|---|---|
| `Calendario.dfy` | Go's date normalisation and `AddMonthsClamped` over the Gregorian calendar; a date is a month number and a day |
| `CicloCartao.dfy` | the billing cycle of a card: closing and due dates, cycles, best day to buy |
| `Fatura.dfy` | purchases in instalments, and invoices assembled from rows or from an aggregate |
| `Tabelas.dfy`, `Livro.dfy` | the tables behind the card service and what each operation does to them |
| `CartaoService.dfy` | the service and its repositories as a class that changes those tables |
| `LivroInvariante.dfy`, `LivroCompras.dfy`, `LivroPagamentos.dfy`, `LivroVencimentos.dfy` | what every run keeps; purchases and their deletion; payments, undo and the account balance; which invoices can be paid |
| `LivroRegras.dfy` | when each operation of the ledger is accepted and what it writes, said of the rows alone |
| `LivroExemplos.dfy` | short runs from empty tables that reach what the ledger does not keep |
| `ResumoFaturas.dfy` | the grouped queries and the card summary built on them |
| `Financiamento.dfy`, `Amortizacao.dfy` | the amortisation tables (zero rate, SAC, Price) and what all of them keep |
| `FormaDaTabela.dfy`, `DerivaPrice.dfy`, `PrazoPrice.dfy` | the shape and size of the tables; the rounding error of Price; how many rows it has |
| `Parcelamento.dfy`, `ParcelamentoRegras.dfy` | instalment plans, their progress, and the simulation with an extra payment; what a plan comes to, said of what was filled in |
| `CadastroDePlano.dfy`, `Texto.dfy` | registering a plan from its form, and what storing its rate and descriptions does to it |
| `Money.dfy`, `MoneyTextos.dfy`, `Centavos.dfy` | printing and parsing amounts, with int64 wrap-around; which texts are read, and as what |
| `Balde.dfy`, `MemoryRateLimit.dfy`, `RedisRateLimit.dfy` | the two token-bucket rate limiters |
| `Lockout.dfy`, `LockoutErros.dfy`, `LockoutExemplo.dfy` | progressive login lockout; runs with a failing store; a run that reaches the bound |
| `Comum.dfy`, `Reais.dfy` | values and arithmetic shared by the others |

Code that changes state step by step is a class or a method with loops, proved against a function
that gives the result (named `...Spec`, or after the table or row it describes); the properties are
lemmas about those functions. Entities keep the source's names, in Portuguese.

Amounts are integers of cents, with int64 limits written out where they can matter. The monthly rate
is a real number `taxa >= 0`, and bucket tokens are real numbers. The clock, today's date, the outcome
of the password check and which store calls fail are parameters; the ids drawn for new rows come from a
counter that only grows, and stand for `created_at` as well. Every service call is one atomic step.

What does not hold as it reads in the source, with the condition under which it does and, where it can
be reached from a fresh state, a run that reaches it:

- `BRL()` of a negative amount cannot be parsed back (`Money.BRLRoundTrip`), and amounts whose
  `reais*100 + cents` wraps are accepted (`Money.AcceptedAmounts`).
- Later instalments of a purchase can miss their invoice's due date (`Fatura.InstalmentOnItsDueDate`,
  `Fatura.FebruaryOf2023Drifts`), and then no payment ever reaches them
  (`LivroVencimentos.DriftedInstalmentIsNeverPaid`, `LivroExemplos.DriftedInstalmentIsReached`).
- A purchase can raise the total of an invoice that already has payments
  (`LivroCompras.PurchaseSparesPaidTotalIff`), and can then not be deleted
  (`LivroCompras.DeleteInvertsRegisterIff`, `LivroExemplos.PaidInvoiceCanGrow`).
- Undo goes by payment date, not by what was recorded last (`LivroPagamentos.UndoInvertsPayIff`,
  `LivroExemplos.UndoCanTakeAnother`).
- The invoice `PagarFatura` returns can carry a stale last value
  (`ResumoFaturas.ReturnedInvoiceIsCurrentIff`, `LivroExemplos.ReturnedInvoiceCanBeStale`).
- Editing a transaction can leave a payment without its saída (`LivroInvariante.EditKeepsInvariantIff`,
  `LivroExemplos.EditCanStrandAPayment`).
- The summary can miss the oldest debt of a card with more than 120 invoices
  (`ResumoFaturas.SummaryShowsTheOldestDebt`, `LivroExemplos.SummaryCanMissTheOldestDebt`).
- A description the domain accepts can be too long for its column once the instalment's number is added
  (`Fatura.DescriptionFitsIff`, `CadastroDePlano.StoredIff`).
- A plan whose yearly rate has more than four decimals is not read back as it was created
  (`CadastroDePlano.ReloadIsIdentityIff`, `CadastroDePlano.FiveDecimalsCanBreak`).
- A Price table can end before its last month, by rounding alone or by the extra payment
  (`PrazoPrice.PriceRowCount`, `PrazoPrice.PriceRunsFullTerm`, `PrazoPrice.PriceTermBracket`,
  `PrazoPrice.PriceCanEndEarly`).
- The wait of the in-memory limiter is cut to whole nanoseconds and can be too short
  (`MemoryRateLimit.ReturnedWaitSufficesIff`, `MemoryRateLimit.ReturnedWaitCanBeShort`), and its clean-up
  is invisible only while the table of keys is not full (`MemoryRateLimit.EvictionIsInvisible`,
  `MemoryRateLimit.LimiterFillsUp`).
- The comment of the lockout policy gives the lock as `BaseLock * 2^(falhas - FreeAttempts)`
  (`internal/core/domain/seguranca.go:15`); the code, like the comment's own example, has one less in
  the exponent, and the model follows the code.

The table lists what is proved. The class methods it does not name carry one step each to its
specification, and the remaining lemmas are steps of the proofs.

## Model

| member | source | states |
|---|---|---|
| Financiamento.Cronograma | internal/core/domain/financiamento.go:150-240 | The three branches with their early exits, error returns and loops compute exactly the table the specification defines row by row, from which everything below is proved. |
| Financiamento.TabelaSemJuros | internal/core/domain/financiamento.go:190-202 | The zero-rate loop, extra payment included, yields the specified rows. |
| Financiamento.TabelaSAC | internal/core/domain/financiamento.go:204-217 | The SAC loop, with its overpayment guard, yields the specified rows. |
| Financiamento.TabelaPrice | internal/core/domain/financiamento.go:219-237 | The Price loop yields the specified rows, or the error when a month's interest exceeds the instalment. |
| Financiamento.TotaisCronograma | internal/core/domain/financiamento.go:252-259 | The loop returns the sum of the instalments and the sum of the interest. |
| Amortizacao.ScheduleAlwaysExists | internal/core/domain/financiamento.go:150-156 | A table comes back if and only if 1 <= n <= 420 and the amount is at least n cents: for every rate, extra payment and system both error branches of Price are dead. |
| Amortizacao.AnnuityBounds | internal/core/domain/financiamento.go:220-222 | The exact annuity instalment A of V over n months at rate i > 0 satisfies V*i < A and V <= n*A <= n*V*i + V. |
| Amortizacao.InstalmentCoversInterest | internal/core/domain/financiamento.go:222-232 | The rounded Price instalment is at least one cent and at least the rounded interest of the whole amount. |
| Amortizacao.ScheduleConserves | internal/core/domain/financiamento.go:141-151 | Every returned table has between 1 and n rows, numbered and dated month by month, with no negative interest or amortisation and each balance the previous one less the amortisation; it ends at exactly zero, the amortisations sum to the amount financed, and total paid less total interest is that amount. |
| Amortizacao.ConsistentRows | internal/core/domain/financiamento.go:168-177 | Row by row: balances never rise, stay between zero and the amount, every instalment is interest plus amortisation, and only the last balance has to be zero. |
| Amortizacao.MoreExtraNeverCostsMore | internal/core/domain/financiamento.go:147-187 | Two runs of one contract: with the larger extra payment the balance after every month is no larger, there are no more rows, and neither total interest nor total paid is larger, in all three branches. |
| FormaDaTabela.EqualQuotaRowCount | internal/core/domain/financiamento.go:162-217 | With zero rate or SAC, base = V/n and the extra payment of the contract, the table has exactly ceil(n*base / (base + extra)) rows. |
| FormaDaTabela.EqualQuotaAmortisations | internal/core/domain/financiamento.go:181-217 | With zero rate or SAC every row but the last amortises V/n and the extra payment, the first one also the cents V/n leaves. |
| FormaDaTabela.EqualQuotaInstalmentsNeverRise | internal/core/domain/financiamento.go:204-217 | With zero rate or SAC no instalment is larger than the one before. |
| FormaDaTabela.PriceInstalmentsAreConstant | internal/core/domain/financiamento.go:219-237 | Every Price row but the last costs exactly the exact instalment rounded half up to the cent, plus the extra payment; the last costs no more than that unless it is month n. |
| FormaDaTabela.InterestIsOnTheBalance | internal/core/domain/financiamento.go:204-237 | In every table each row bears a month's interest on the balance before it, rounded half up to the cent. |
| DerivaPrice.ExactBalanceReachesZero | internal/core/domain/financiamento.go:220-222 | The annuity formula is right: without rounding, its balance after n months is exactly zero. |
| DerivaPrice.DriftClosedForm | internal/core/domain/financiamento.go:227-237 | The recurrence d' = d(1+i) + 1 that one cent a month grows by is ((1+i)^k - 1)/i. |
| DerivaPrice.PriceRoundingBound | internal/core/domain/financiamento.go:219-237 | With any extra payment, the cent balance after row k < last differs from the exact balance of the annuity with the same extra by at most D = ((1+i)^k - 1)/i cents; more exactly, with an instalment e cents above the exact one, it lies from (1/2 + e)*D below to (1/2 - e)*D above. |
| DerivaPrice.PriceLastInstalmentBound | internal/core/domain/financiamento.go:233-236 | When the table runs to month n, its last instalment, which absorbs all rounding, differs from the other rows plus what the exact annuity then still owes by (1/2 + e)*D less to (1/2 - e)*D more, D = ((1+i)^n - 1)/i; without extra payment that annuity owes nothing, and the last instalment is within D cents of the exact one. |
| PrazoPrice.PaidOffIff | internal/core/domain/financiamento.go:220-222 | Without rounding, monthly payments of b pay the amount off within m months if and only if b is at least the exact instalment of m months. |
| PrazoPrice.PriceRowCount | internal/core/domain/financiamento.go:219-237 | With any extra payment and q = instalment + extra: for every m < n the table has more than m rows if q + 1/2 is below the exact instalment A(m) of m months, and m at most if q - 1/2 is not. Only q within half a cent of some A(m) is left open. |
| PrazoPrice.PriceRunsFullTerm | internal/core/domain/financiamento.go:226-237 | With any extra payment, paying e cents a month more than the exact A, the table has all n rows whenever (1/2 + e)*(((1+i)^n - 1)/i - 1) < A. |
| PrazoPrice.PriceTermBracket | internal/core/domain/financiamento.go:219-237 | With any extra payment and q = instalment + extra: all n rows if V > (n-1)*q; fewer than n if V <= (n-1)*(q - first month's interest); and where that interest rounds to zero, fewer than n if and only if V <= (n-1)*q, with exactly min(n, ceil(V/q)) rows. |
| PrazoPrice.PriceCanEndEarly | internal/core/domain/financiamento.go:226-237 | A table without extra payment can end early: 11 cents over 7 months at 0.1% a month is over after 6 rows. |
| FormaDaTabela.MonthlyRateBound | internal/core/domain/financiamento.go:119-129 | For yearly rates from 0 to 100%, the monthly rate is a twelfth of a nominal one, and of an effective one the rate that compounds to it in twelve months, at most a twelfth; it is zero only for rate zero. |
| FormaDaTabela.MonthlyRateIsUnique | internal/core/domain/financiamento.go:119-129 | There is only one such rate. |
| FormaDaTabela.AmountsFitInt64 | internal/core/domain/financiamento.go:150-259 | For accepted contracts at up to 100% a year no cell exceeds 2*MaxMoney and no total 421*MaxMoney, so int64 never wraps. |
| CadastroDePlano.Cadastrar | internal/core/domain/parcelamento.go:110-203 | Registering from the form: every check of NewParcelamento and Validate in its order, texts and dates included, and then the specified plan. |
| CadastroDePlano.StoredIff | internal/adapters/db/postgres/migrations/0001_init.sql:68 | A plan the domain accepts can be stored if and only if its description and the number of its last instalment, " (n/n)", fit 255 characters. |
| Texto.NormalizedIsJoined | internal/core/domain/parcelamento.go:120 | What is kept of a text is its words, the runs between spaces, one space apart. |
| CadastroDePlano.ReloadIsIdentityIff | internal/adapters/db/postgres/migrations/0004_financiamento.sql:12 | A plan read back from the database equals the one created if and only if its yearly rate has at most four decimals, the scale of the column. |
| CadastroDePlano.StoredIsNearest | internal/adapters/db/postgres/migrations/0004_financiamento.sql:12 | What is stored of a rate is the nearest number of ten-thousandths, the upper one from the middle on. |
| CadastroDePlano.StoredPlanConserves | internal/adapters/db/postgres/parcelamento_repository.go:62-80 | With such a rate, the schedule rebuilt from the stored contract is the original, and progress from stored contract and stored rows adds up to the plan on any day. |
| CadastroDePlano.FiveDecimalsCanBreak | internal/adapters/db/postgres/parcelamento_repository.go:44-80 | At a nominal 8.66666% the contract read back counts 400 cents more as already paid, and paid plus generated no longer make the total. |
| Parcelamento.CronogramaCompleto | internal/core/domain/parcelamento.go:253-302 | The rebuilt schedule, from the table or from equal parts with the remainder in the first, is the specified one. |
| Parcelamento.ValorJaPago | internal/core/domain/parcelamento.go:222-234 | The loop sums exactly the first ParcelasJaPagas rows of the rebuilt schedule. |
| Parcelamento.RebuiltScheduleIsTheContract | internal/core/domain/parcelamento.go:152-171 | Although an early payoff shrinks TotalParcelas, rebuilding the plan as created through PrazoContratado gives its rows again; what storage does to the rate is CadastroDePlano.ReloadIsIdentityIff. |
| Parcelamento.ScheduleIsFaithful | internal/core/domain/parcelamento.go:253-302 | For every plan kind the rebuilt schedule has TotalParcelas rows, sums to ValorTotal and is numbered and dated month by month. |
| Parcelamento.GeneratedPlusPaidIsTotal | internal/core/domain/parcelamento.go:206-234 | The generated instalments plus ValorJaPago make ValorTotal, and generated item j carries contract number ParcelasJaPagas + j + 1 and its month. |
| Parcelamento.CalcularProgresso | internal/core/domain/parcelamento.go:65-85 | The loop computes the specified tally of paid, due and next. |
| Parcelamento.ProgressoEm | internal/core/domain/parcelamento.go:245-251 | CalcularProgresso followed by AplicarJaPagas gives the specified progress. |
| Parcelamento.Progresso.AplicarJaPagas | internal/core/domain/parcelamento.go:236-243 | The fields change by the paid count and ValorJaPago, or not at all. |
| Parcelamento.AggregatesAreTheLoop | internal/adapters/db/postgres/parcelamento_repository.go:228-287 | The five SQL aggregates over the stored rows equal the service's loop. |
| Parcelamento.ListAgreesWithGet | internal/adapters/db/postgres/parcelamento_repository.go:228-287 | What List shows for a plan is what ProgressoEm computes from the same rows. |
| Parcelamento.PaidComeFirst | internal/core/domain/parcelamento.go:67-85 | In date order the paid instalments are exactly the first ones and ProximaParcela is the one after them. |
| Parcelamento.ProgressConserves | internal/core/domain/parcelamento.go:65-85 | On a freshly generated plan as created, for any today: paid plus remaining counts make TotalParcelas, paid plus remaining values make ValorTotal, and ProximaParcela is the earliest instalment after today, absent only if none is left. |
| Parcelamento.PaidGrowWithTime | internal/core/domain/parcelamento.go:67-85 | As today advances the paid count never falls and the remaining count never rises. |
| Parcelamento.Simular | internal/core/services/financas_service.go:380-417 | It succeeds exactly for valid contracts; the comparison is there exactly when there is an extra payment, and then rows, interest and total paid never exceed those of SemAporte. |
| ParcelamentoRegras.PlainPlanIff | internal/core/domain/parcelamento.go:124-203 | A plan without a contract is accepted exactly when 0 <= already paid < n <= 420 and its values are in bounds; its total is the one given or the value times n, and item j is total/n with the remainder in the first, or the value given. |
| ParcelamentoRegras.FinancedPlanIff | internal/core/domain/parcelamento.go:147-176 | A financed plan is accepted exactly when it is not recurring, its table exists, sums to at most MaxMoney and has more rows than are paid already; total, count and items are those of the table. |
| ParcelamentoRegras.ProgressIsOfTheContract | internal/core/domain/parcelamento.go:236-251 | What a new plan shows as paid and left, on any today, is the sum of the first rows of its contract and of the others: the rows already paid and those dated up to today. |
| ParcelamentoRegras.FormIsAcceptedIff | internal/core/domain/parcelamento.go:110-146 | A form is accepted exactly when its texts, kind, date and, with a contract, its bank, system, kind of rate and yearly rate are in bounds and the plan it says is accepted. |
| ParcelamentoRegras.FormIsThePlan | internal/core/domain/financiamento.go:80-129 | An accepted form is the plan it says: recurring or not, its dates and counts, SAC unless Price is asked for, and the monthly rate of a nominal or else an effective yearly one. |
| Calendario.OrderIsDayOrder | internal/core/domain/periodo.go:34-44 | The (month, day) order used everywhere is the order of the Gregorian day numbers, and equal numbers mean equal dates. |
| Calendario.TimeDateCountsDays | internal/core/domain/periodo.go:36-44 | Date normalisation, however far out of range the day, neither loses nor gains a day. |
| Calendario.AddMonthsClampedClamps | internal/core/domain/periodo.go:34-44 | AddMonthsClamped lands in the n-th month after, on the same day or on its last day if the month is shorter. |
| Calendario.LaterMonthsAreLater | internal/core/domain/periodo.go:34-44 | Shifting one date by more months always gives a strictly later date. |
| Calendario.NextDay | internal/core/domain/cartao.go:118-120 | AddDate(0, 0, 1) is the very next day: nothing lies between. |
| CicloCartao.PurchaseFallsInItsCycle | internal/core/domain/cartao.go:103-133 | For all 31 x 31 cards, all dates and all due months: FaturaDaCompra(d) is that due date if and only if InicioDoCiclo <= d <= FimDoCiclo. |
| CicloCartao.CyclesPartitionTheCalendar | internal/core/domain/cartao.go:121-133 | Every date lies in exactly one cycle: that of its own invoice. |
| CicloCartao.CyclesAbut | internal/core/domain/cartao.go:121-133 | The next cycle starts on the day after this one ends: no gap, no overlap. |
| CicloCartao.DueOfItsClosing | internal/core/domain/cartao.go:96-100 | From a due date to its closing and forward again is the identity. |
| CicloCartao.DueIsFirstAfterClosing | internal/core/domain/cartao.go:79-100 | What a closing falls due on is the card's first due date after it; the two are one day exactly when a short month ends on both and the due day is the later of the card's two. |
| CicloCartao.PurchaseGoesToFirstClosing | internal/core/domain/cartao.go:102-114 | A purchase goes to the invoice of the card's first closing on or after its date. |
| CicloCartao.ClosingOfItsDue | internal/core/domain/cartao.go:128-133 | From a closing date to its due date and back is the identity. |
| CicloCartao.DueDatesIncrease | internal/core/domain/cartao.go:82-100 | Due dates strictly increase with the closing month and never precede their closing. |
| CicloCartao.InvoicesFollowPurchases | internal/core/domain/cartao.go:103-114 | A later purchase never falls due earlier. |
| CicloCartao.BestDayHasLongestTerm | internal/core/domain/cartao.go:116-120 | MelhorDiaCompra is the first day of its cycle: exactly the earlier purchases fall due earlier. |
| CicloCartao.DueOfMonth | internal/core/services/cartao_service.go:228-241 | vencimentoDe gives the due day of the month, clamped, always a valid date. |
| CicloCartao.ClosingOfMonth | internal/core/domain/cartao.go:73-77 | The closing date of a month is the card's closing day, or the last day of a shorter month. |
| Fatura.NewCompraCartao | internal/core/domain/fatura.go:59-116 | Every check in its order, user, date and description included, and the instalments, as specified. |
| Fatura.PurchaseIsDividedExactly | internal/core/domain/fatura.go:55-116 | Accepted exactly with 1 to 36 instalments, none given being one, and a price from a cent each to MaxMoney; they are price/n each with the remainder in the first, numbered 1 to n, one a month from the first invoice, and sum exactly to the price. |
| Fatura.DescriptionFitsIff | internal/adapters/db/postgres/migrations/0008_cartoes.sql:43 | Of the descriptions of up to 255 characters the domain accepts, the column takes those of a single purchase, the empty one, and those that leave 6 characters for the number of the instalment, or 8 from ten instalments on. |
| Fatura.InstalmentOnItsDueDate | internal/core/domain/fatura.go:112 | Instalment i falls in the i-th month after the first invoice, and on the date vencimentoDe gives that month if and only if the clamped due day there fits the first invoice's month. |
| Fatura.EarlyDueDaysNeverDrift | internal/core/domain/fatura.go:112 | With a due day up to 28 every instalment is on its invoice's due date. |
| Fatura.LaterInstalmentsCanDrift | internal/core/domain/fatura.go:112 | Due day 31, first invoice in a 28-day February: the next instalment is filed under a date that is no invoice's due date. |
| Fatura.FebruaryOf2023Drifts | internal/core/domain/fatura.go:112 | Such a purchase: 10 February 2023 on a card closing on the 20th and due on the 31st. |
| Fatura.MontarFatura | internal/core/domain/fatura.go:219-244 | The two loops give the sum of the purchases, the sum of the payments, the last payment tracked and the status. |
| Fatura.MontarDoResumo | internal/core/domain/fatura.go:208-217 | The invoice assembled from an aggregate row carries its sums, its last payment and the status they imply. |
| Fatura.Invoice.Restante | internal/core/domain/fatura.go:183-190 | Never negative; zero exactly when the payments cover the total, and otherwise payments plus it make the total. |
| Fatura.Invoice.AtualizarStatus | internal/core/domain/fatura.go:246-263 | Changes only the status, to the one that total, payments, cycle end and today imply. |
| CartaoService.CartaoService.RegistrarCompra | internal/core/services/cartao_service.go:325-357 | Takes the tables to the specified state: refusals in order, an overlong description and one its column refuses among them, else all rows of the purchase. |
| CartaoService.CartaoService.CreateCompras | internal/adapters/db/postgres/cartao_repository.go:164-198 | Appends one row per instalment, all of one new group, or, if a description does not fit its column, none. |
| CartaoService.CartaoService.ExcluirCompra | internal/core/services/cartao_service.go:359-379 | Refuses a group with payments or without rows; else removes exactly its rows. |
| CartaoService.CartaoService.PagarFatura | internal/core/services/cartao_service.go:248-305 | Takes the tables to the specified state and returns the specified invoice or refusal. |
| CartaoService.CartaoService.Pagar | internal/core/services/cartao_service.go:262-304 | The body of PagarFatura on the invoice of one due date: refusals in order, the default value, the two inserts, and the fields it updates. |
| CartaoService.CartaoService.DesfazerPagamento | internal/core/services/cartao_service.go:307-318 | Removes the latest payment by (pago_em, created_at) and its saída, or answers ErrFaturaNaoPaga. |
| LivroRegras.PayingIsAcceptedIff | internal/core/services/cartao_service.go:262-292 | A payment is accepted exactly when the purchases sum to something, the payments to less, and the value, or what remains when none is given, is at most MaxMoney; it then adds one payment of that value with its saída. Refused, it changes nothing, with the error of the first check that fails. |
| LivroRegras.PaymentIsRecorded | internal/adapters/db/postgres/cartao_repository.go:407-428 | The payment adds its value to what the invoice was paid and takes it off SaldoAte at every later date. |
| LivroRegras.StatusOfInvoice | internal/core/domain/fatura.go:192-193 | Paga exactly when something was paid and nothing remains of the rows' total, parcial when something does; with nothing paid, aberta up to the closing day and fechada after it. |
| LivroRegras.OpenWhileItTakesPurchases | internal/core/domain/fatura.go:246-263 | An invoice with nothing paid is aberta exactly while a purchase made today would fall due on it or earlier. |
| LivroRegras.UndoTakesTheLatest | internal/adapters/db/postgres/cartao_repository.go:429-456 | Undo fails exactly when the invoice has no payment; else it takes, with its saída, the payment with the latest date and, on that date, the one recorded last. |
| LivroRegras.PurchaseIsAcceptedIff | internal/core/services/cartao_service.go:325-357 | A purchase is registered exactly when the card exists and is active, it has 1 to 36 instalments of a cent or more up to MaxMoney, its numbered description fits, and the invoice it falls on has no payment; otherwise nothing changes. |
| LivroRegras.RefusedPurchase | internal/core/services/cartao_service.go:325-354 | A refused purchase leaves the tables as they were, with the error of the first check it fails. |
| LivroRegras.RegisteredRows | internal/core/services/cartao_service.go:325-357 | It adds exactly one row an instalment, all of one new group: price/n with the remainder in the first, numbered and filed month by month from the invoice of its date. Nothing else changes. |
| LivroRegras.PurchaseFormIff | internal/core/domain/fatura.go:59-87 | The domain accepts a purchase exactly when it also names its user and a date and its description has at most 255 characters. |
| LivroRegras.ArchivedCardTakesNoPurchase | internal/core/services/cartao_service.go:68-90 | While an update leaves a card archived every purchase on it answers ErrCartaoArquivado; left or made active it takes them. The update changes only that card. |
| LivroRegras.DeletionTakesTheGroup | internal/core/services/cartao_service.go:359-379 | A purchase is deleted exactly when it has rows and none is on an invoice with payments; then exactly its rows go. |
| LivroRegras.CardIsCreatedIff | internal/core/domain/cartao.go:42-71 | A card is created exactly when its name, bank, days and limit are within bounds: new, active, without purchases and as filled in. |
| LivroRegras.CardIsDeletedIff | internal/core/services/cartao_service.go:94-106 | A card is deleted exactly when it exists and has no purchases, and only its own row goes. |
| LivroRegras.CreatedTransactionCounts | internal/core/services/financas_service.go:96-115 | A transaction is created exactly for values from a cent to MaxMoney, and moves SaldoAte of the dates after it by its signed value and no other. |
| LivroRegras.EditedTransactionCounts | internal/core/services/financas_service.go:122-143 | An edit is accepted exactly when a plan's instalment stays a saída and the value is in bounds; SaldoAte then loses the old signed value and gains the new one, and no other row changes. |
| LivroRegras.DeletedTransactionCounts | internal/core/services/financas_service.go:144-153 | A deletion is accepted exactly for what is no plan instalment; SaldoAte loses its signed value, and only that row and the payment it backs go. |
| LivroInvariante.StepKeepsInvariant | internal/core/services/cartao_service.go:94-379 | Each of the ten steps, card updates included, keeps: every payment has its own saída of equal value and date, its invoice has a purchase, ids are unique, purchases are positive and belong to a card, and every card has valid days. |
| LivroInvariante.RunKeepsInvariant | internal/core/services/cartao_service.go:94-379 | The same over every serial run whose edits leave payment saídas alone. |
| LivroInvariante.ReachableLedgersAreSound | internal/core/services/cartao_service.go:94-379 | In particular every ledger such a run reaches from empty tables. |
| LivroInvariante.IdsAreUnique | internal/adapters/db/postgres/transacao_repository.go:70-93 | Two transactions with one id are the same row. |
| LivroInvariante.BackingIsUnique | internal/adapters/db/postgres/migrations/0009_pagamento_parcial.sql:18 | A saída backs at most one payment. |
| LivroInvariante.ExclusionKeepsInvariant | internal/core/services/cartao_service.go:359-379 | Deleting a purchase leaves every payment's invoice with a purchase. |
| LivroInvariante.UndoKeepsInvariant | internal/adapters/db/postgres/cartao_repository.go:429-456 | Undo removes the payment and its own saída together: nothing left loses its backing. |
| LivroInvariante.TransactionRemovalKeepsInvariant | internal/adapters/db/postgres/transacao_repository.go:139-157 | Deleting any transaction, with the cascade, keeps every remaining payment backed. |
| LivroInvariante.CardDeletionTakesNothingElse | internal/core/services/cartao_service.go:94-106 | Deleting a card removes no payment, purchase or transaction, so it strands no saída. |
| LivroInvariante.EditKeepsInvariantIff | internal/core/services/financas_service.go:122-141 | An accepted edit keeps every payment backed if and only if it leaves type, value and date of a payment's saída as they were; the service does not check this. |
| LivroInvariante.PaidInvoiceIsFrozen | internal/core/services/cartao_service.go:343-379 | No step takes a purchase off an invoice with payments, and it can only gain instalments numbered 2 or more. |
| LivroInvariante.RunFreezesPaidInvoice | internal/core/services/cartao_service.go:343-379 | The same over any run throughout which the invoice has payments. |
| LivroCompras.PurchaseSparesPaidTotalIff | internal/core/services/cartao_service.go:343-354 | An accepted purchase leaves the total of an invoice with payments unchanged if and only if none of its later instalments is filed there; otherwise the total rises. |
| LivroCompras.PaidTotalCanRise | internal/core/services/cartao_service.go:343-354 | A two-instalment purchase whose second month is already paid, and first is not, is accepted exactly when its description fits, and then raises that paid total. |
| LivroCompras.PurchaseAddsItsPrice | internal/adapters/db/postgres/cartao_repository.go:164-198 | Registering a purchase adds its price, to the cent, to the sum of all purchase rows. |
| LivroCompras.DeleteInvertsRegisterIff | internal/core/services/cartao_service.go:325-379 | Deleting the purchase just registered succeeds, and restores the table, if and only if none of its later instalments was filed on an invoice with payments; otherwise it is refused. |
| LivroVencimentos.RunKeepsDueDates | internal/core/services/cartao_service.go:228-290 | Over every run that keeps the cards' closing and due days, each payment is filed under the due date of its month. |
| LivroVencimentos.DriftedInstalmentIsNeverPaid | internal/core/domain/fatura.go:112 | In every ledger such a run reaches from empty tables, an instalment filed off its month's due date has no payment, and TotalNaoPago is at least its value: it holds the limit while its purchase stands. |
| LivroExemplos.PaidLedgerIsReached | internal/core/services/cartao_service.go:54-357 | Creating a card, buying and paying part of the invoice leads from empty tables to the ledger the next four start from. |
| LivroExemplos.EditCanStrandAPayment | internal/core/services/financas_service.go:122-141 | There, an accepted edit leaves a payment without its saída. |
| LivroExemplos.UndoCanTakeAnother | internal/adapters/db/postgres/cartao_repository.go:434-440 | There, undo after a second, earlier dated payment takes the first one back. |
| LivroExemplos.ReturnedInvoiceCanBeStale | internal/core/services/cartao_service.go:294-299 | There, the invoice returned for a second payment shows the value of the first. |
| LivroExemplos.PaidInvoiceCanGrow | internal/core/services/cartao_service.go:343-354 | There, a purchase of the month before in two instalments is accepted, raises the partly paid total and cannot be deleted. |
| LivroExemplos.SummaryCanMissTheOldestDebt | internal/core/services/cartao_service.go:150-159 | From empty tables, a card and one purchase a month for more than 120 months: the invoice of the first month is owed, and the summary does not show the oldest debt. |
| LivroExemplos.DriftedInstalmentIsReached | internal/core/domain/fatura.go:112 | From empty tables, a card due on the 31st and a purchase in a 28-day February lead to an instalment no payment reaches. |
| LivroPagamentos.CardStepsConserve | internal/adapters/db/postgres/transacao_repository.go:226-242 | No card step changes, at any date, the sum of SaldoAte and the payments recorded before it. |
| LivroPagamentos.CardRunsConserve | internal/adapters/db/postgres/transacao_repository.go:226-242 | The same over any run of card steps. |
| LivroPagamentos.OnlyPaymentsMoveTheBalance | internal/core/services/cartao_service.go:320-379 | Purchases, cards and their deletion leave transactions and payments exactly as they were. |
| LivroPagamentos.UndoTakesOne | internal/adapters/db/postgres/cartao_repository.go:429-456 | An undo takes exactly one payment off its invoice and gives its value back to SaldoAte at every date after it. |
| LivroPagamentos.UndoAllReturnsEverything | internal/core/services/cartao_service.go:307-318 | Undoing until ErrFaturaNaoPaga takes as many steps as there are payments and returns all they took out. |
| LivroPagamentos.PayThenUndoAllRestores | internal/core/services/cartao_service.go:248-318 | After any payments, in whatever date order, on an unpaid invoice, undoing them all restores SaldoAte at every date. |
| LivroPagamentos.UndoInvertsPayIff | internal/adapters/db/postgres/cartao_repository.go:434-440 | One undo restores the tables as they were before the last payment if and only if that payment is dated no earlier than the others of its invoice. |
| ResumoFaturas.SortedPayments | internal/adapters/db/postgres/cartao_repository.go:376-403 | Payments read in (pago_em, created_at) order are ordered and have the same sum. |
| ResumoFaturas.SortedRows | internal/adapters/db/postgres/cartao_repository.go:376-403 | Reading them in order neither drops nor repeats a row. |
| ResumoFaturas.LastIsLatest | internal/core/domain/fatura.go:234-241 | The last payment the loop of MontarFatura ends with is the one undo would take. |
| ResumoFaturas.ReturnedInvoiceIsCurrentIff | internal/core/services/cartao_service.go:294-299 | The invoice PagarFatura returns equals the invoice read again, except for the last payment's value, which is stale unless the new payment is dated before the last one or has the same value. |
| ResumoFaturas.PayingWithoutValueSettles | internal/core/services/cartao_service.go:269-280 | Paying without a value succeeds exactly when the invoice has a positive total of which something up to MaxMoney is left to pay; it then leaves it paga, payments equal to its total. |
| ResumoFaturas.GroupTotals | internal/adapters/db/postgres/cartao_repository.go:233-248 | GROUP BY has a group for exactly the due dates with purchases, holding the sum of their rows. |
| ResumoFaturas.ListedDueDates | internal/adapters/db/postgres/cartao_repository.go:233-248 | The list has each such date once, latest first. |
| ResumoFaturas.SummaryRowIsTheInvoice | internal/adapters/db/postgres/cartao_repository.go:233-283 | MontarDoResumo of a grouped row equals MontarFatura of the raw rows: total, paid, last payment, cycle and status. |
| ResumoFaturas.UnpaidIsSumOfRemainders | internal/adapters/db/postgres/cartao_repository.go:281-308 | TotalNaoPago is the sum of every listed Restante plus what the invoices beyond the 120 listed owe: with at most 120, the listed ones alone. |
| ResumoFaturas.RemainderOfInvoice | internal/core/domain/fatura.go:183-190 | What the grouped row leaves to pay is the Restante of the invoice assembled from its rows. |
| ResumoFaturas.MontarResumo | internal/core/services/cartao_service.go:134-177 | The method with its two loops returns the specified summary. |
| ResumoFaturas.BuscarAPagar | internal/core/services/cartao_service.go:150-159 | The loop from the oldest row returns the last owed row of the list. |
| ResumoFaturas.BuscarAberta | internal/core/services/cartao_service.go:161-175 | The loop returns the row of the open cycle or an empty one. |
| ResumoFaturas.SummaryShowsTheOldestDebt | internal/core/services/cartao_service.go:134-177 | APagar is absent exactly when TotalNaoPago is zero, and else the oldest invoice that owes anything, if and only if nothing is owed on the invoices beyond the 120 listed; what it shows is the invoice assembled from its rows, and so is the open one unless it was left out. |
| ResumoFaturas.ShortListLeavesNothingOut | internal/adapters/db/postgres/cartao_repository.go:246-248 | A card with 120 invoices or fewer leaves none out. |
| ResumoFaturas.SummaryFields | internal/core/services/cartao_service.go:134-177 | EmAberto is absent exactly when APagar is the invoice a purchase today would fall on; the free limit is the card's less all that is owed, never below zero; the best day is the one after the month's closing. |
| ResumoFaturas.ShownNeverExceedsOwed | internal/core/services/cartao_service.go:134-177 | With any number of invoices, what APagar and EmAberto still owe never exceeds TotalNaoPago. |
| MemoryRateLimit.MemoryRateLimiter.Allow | internal/adapters/http/middlewares/ratelimit.go:46-67 | Takes the buckets and the clock to the specified buckets and answer, key limit included; what that allows is AllowedIff. |
| MemoryRateLimit.MemoryRateLimiter.Cleanup | internal/adapters/http/middlewares/ratelimit.go:76-84 | The loop over the map removes exactly the idle keys. |
| MemoryRateLimit.TokenBucketBound | internal/adapters/http/middlewares/ratelimit.go:46-87 | In any stretch of T seconds of any run, clean-ups included, one key is allowed at most burst + rate*T requests. |
| MemoryRateLimit.AllowedIff | internal/adapters/http/middlewares/ratelimit.go:46-67 | On every run from the empty table a request is allowed if and only if it finds room for its key and no stretch of the run that ends with it, counting it, exceeds burst + rate*T; without room it is told to wait a second. |
| MemoryRateLimit.RefillLaw | internal/adapters/http/middlewares/ratelimit.go:60 | Left alone, a key's balance after any wait is what it was plus rate*T, up to the burst, whatever it was. |
| MemoryRateLimit.IdleKeysAreForgotten | internal/adapters/http/middlewares/ratelimit.go:76-84 | Clean-up keeps exactly the keys used within burst/rate seconds and a minute, and their buckets. |
| MemoryRateLimit.RequestSpendsOne | internal/adapters/http/middlewares/ratelimit.go:60-66 | A request takes one token off its key if allowed, none otherwise, and touches no other key's balance. |
| MemoryRateLimit.CleanupKeepsBalances | internal/adapters/http/middlewares/ratelimit.go:69-87 | Clean-up changes no key's balance, now or later. |
| MemoryRateLimit.EvictionIsInvisible | internal/adapters/http/middlewares/ratelimit.go:46-87 | Over any run the answers equal those of a limiter that never forgets a key if and only if no request finds the table of keys full. |
| MemoryRateLimit.LimiterFillsUp | internal/adapters/http/middlewares/ratelimit.go:52-56 | maxKeys + 1 requests of distinct keys at one instant find the table full, and are answered otherwise than without the limit. |
| MemoryRateLimit.WaitAfterRefusal | internal/adapters/http/middlewares/ratelimit.go:66 | After a refusal that found x tokens, the key left alone is let through d nanoseconds later if and only if d >= (1 - x)/rate seconds. |
| MemoryRateLimit.ReturnedWaitSufficesIff | internal/adapters/http/middlewares/ratelimit.go:66 | Waiting exactly the duration returned gets through if and only if (1 - x)/rate seconds are a whole number of nanoseconds; one more always does, less never. |
| MemoryRateLimit.ReturnedWaitCanBeShort | internal/adapters/http/middlewares/ratelimit.go:66 | At 3 tokens a second with room for one, the wait of 333333333 ns is refused again. |
| RedisRateLimit.TokenBucket.Script | internal/adapters/db/redis/ratelimiter.go:20-48 | The script takes the stored hash, its expiry and the clock to the specified hash and answer; what that allows is AllowedIff. |
| RedisRateLimit.WaitIsExact | internal/adapters/db/redis/ratelimiter.go:38-47 | Left alone, the key is let through d milliseconds after a refusal if and only if d is at least the wait returned, expiry or not. |
| RedisRateLimit.ExpiryIsInvisible | internal/adapters/db/redis/ratelimiter.go:45-46 | Every run answers as it would on a key that never expires. |
| RedisRateLimit.TokenBucketBound | internal/adapters/db/redis/ratelimiter.go:20-48 | At most burst + rate*T calls in any stretch of T seconds, expiries included. |
| RedisRateLimit.AllowedIff | internal/adapters/db/redis/ratelimiter.go:20-48 | On every run from a missing key, expiries included, a call is allowed if and only if no stretch of the run that ends with it, counting it, exceeds burst + rate*T. |
| RedisRateLimit.RefillLaw | internal/adapters/db/redis/ratelimiter.go:29-36 | Left alone, expired or not, the balance after any wait is what it was plus rate*T, up to the burst. |
| RedisRateLimit.KeyExpires | internal/adapters/db/redis/ratelimiter.go:45-46 | A call leaves the key to expire a second after the time a bucket takes to fill, rounded up to the millisecond. |
| Lockout.LockDuration | internal/core/domain/seguranca.go:32-48 | The doubling loop returns min(MaxLock, BaseLock*2^(failures - FreeAttempts - 1)) past the free attempts and zero before. |
| Lockout.LocksDouble | internal/core/domain/seguranca.go:32-48 | Nothing for the free attempts, BaseLock for the next one, and for each one more twice the lock before it, up to MaxLock. |
| Lockout.Login | internal/core/services/auth_service.go:116-140 | A login attempt takes the attempt table to the specified table and outcome: lock check, credentials or their failure, count, lock, reset, with any of the store's calls failing. |
| Lockout.LoginAttemptStore.RegisterFailure | internal/adapters/db/postgres/seguranca_store.go:52-69 | The upsert restarts the count outside the window and else adds one; it returns the new count. |
| Lockout.LoginWithoutStoreErrors | internal/core/services/auth_service.go:116-140 | With a store that answers, that is the step of which the runs below are made. |
| Lockout.WaitIsExact | internal/core/services/auth_service.go:120-129 | After a login answered with a wait, the right password gets in if and only if that long has passed or the store cannot say; before, any login is told the rest of the wait. |
| Lockout.NthFailure | internal/core/services/auth_service.go:197-217 | The n-th wrong password in one window, each tried once the last lock is over, is answered with the lock for n failures, none within the free attempts; one after the window counts as the first. |
| Lockout.SuccessForgets | internal/core/services/auth_service.go:142-146 | A success the store records leaves nothing of the key's failures and nothing else changed. |
| Lockout.FailedCallsChangeNothing | internal/core/services/auth_service.go:131-146 | Credentials that could not be checked, a failure the store could not record and a reset that failed leave the table as it was. |
| Lockout.RowsAreIndependent | internal/core/services/auth_service.go:116-140 | An attempt on one key leaves every other key's row as it was. |
| Lockout.FailuresTakeTime | internal/core/services/auth_service.go:197-217 | Over any run, f recorded failures took, first to latest, at least the sum of LockDuration(1..f-1) and at most one window, and the row is locked for LockDuration(f) from the latest. |
| Lockout.CountIsBounded | internal/core/services/auth_service.go:197-217 | Hence no count exceeds n once the locks of n failures outlast the window. |
| Lockout.DefaultLimit | internal/core/domain/seguranca.go:27-30 | With the default policy that n is 57, and 56 is not enough. |
| Lockout.WrongChecksAreBounded | internal/core/services/auth_service.go:116-217 | In any stretch no longer than a window, after any run and with clean-ups, the wrong passwords checked for a key that does not log in are at most v + n for some v, n whose locks fit: SomaBloqueios(v+2) + SomaBloqueios(n) <= window. |
| Lockout.DefaultWrongChecks | internal/core/domain/seguranca.go:27-30 | With the default policy that is at most 65 wrong passwords in any 24 hours. |
| Lockout.CleanupIsInvisible | internal/adapters/db/postgres/seguranca_store.go:83-87 | Running DeleteStale, however often, never changes the outcome of any login of any run. |
| Lockout.StaleRowsGo | internal/adapters/db/postgres/seguranca_store.go:83-87 | DeleteStale keeps exactly the rows touched within the window or locked until now or later, as they are. |
| LockoutErros.NobodyStaysLockedOut | internal/core/services/auth_service.go:116-217 | Over any run in which any calls to the store fail, a key is told to wait MaxLock at most, and the right password gets in once MaxLock has passed without an attempt. |
| LockoutExemplo.SixtyFiveAreChecked | internal/core/domain/seguranca.go:27-30 | A run of the default policy in which 65 wrong passwords are checked in 24 hours: the bound is sharp. |
| Money.BRL | internal/core/domain/money.go:31-48 | The builder loop prints the specified grouped text. |
| Money.ParseMoney | internal/core/domain/money.go:60-138 | The method with its loops and early returns computes the specified reading and int64 arithmetic. |
| MoneyTextos.ReadIffWritten | internal/core/domain/money.go:50-128 | A text of digits and separators is read if and only if it is digits, digits in threes by one separator, digits with one or two cents after either separator, or digits in threes by one with up to two cents after the other; it is then read as those digits, one digit of cents counting tens. |
| MoneyTextos.TextIsRead | internal/core/domain/money.go:60-128 | With a sign in front and after clean-up, such a text is read as that amount. |
| MoneyTextos.ReadTextIsWritten | internal/core/domain/money.go:60-128 | No other text is read. |
| MoneyTextos.SpacesAndCurrencyAreDropped | internal/core/domain/money.go:61-64 | Spaces around the text, "R$" in either case in front and spaces inside the number change nothing. |
| MoneyTextos.OneDigitOfCents | internal/core/domain/money.go:52-58 | v, a separator and one digit x are v reais and 10x cents. |
| MoneyTextos.TwoDigitsOfCents | internal/core/domain/money.go:52-58 | v, a separator and two digits are v reais and those cents. |
| MoneyTextos.WholeReais | internal/core/domain/money.go:52-59 | v in digits alone, or in groups of three by either separator, is v reais. |
| Money.ValidThousands | internal/core/domain/money.go:140-157 | The FieldsFunc check and loop accept exactly the texts whose pieces between separators have the right lengths. |
| Money.ValidMeansGrouped | internal/core/domain/money.go:140-157 | validThousands accepts exactly the digit strings grouped in threes by one separator. |
| Money.PrintedIsRead | internal/core/domain/money.go:20-29 | What String prints is read as the amount's sign, reais and cents. |
| MoneyTextos.StringShape | internal/core/domain/money.go:20-29 | String prints sign, reais in digits, a point and two digits of cents. |
| MoneyTextos.BRLShape | internal/core/domain/money.go:31-48 | BRL prints sign, "R$ ", the reais in groups of three by points alone, a comma and two digits of cents. |
| Money.StringRoundTrip | internal/core/domain/money.go:20-29 | ParseMoney(m.String()) = m if and only if |m| <= MaxMoney, over all int64. |
| Money.BRLRoundTrip | internal/core/domain/money.go:31-48 | ParseMoney(m.BRL()) = m if and only if 0 <= m <= MaxMoney, over all int64. |
| Money.NegativeBRLIsUnreadable | internal/core/domain/money.go:62 | Every negative amount BRL prints, the smallest int64 included, is rejected: the sign keeps "R$" from being stripped. |
| Money.MostNegativeIsUnreadable | internal/core/domain/money.go:24-28 | The smallest int64, whose negation wraps, prints a text ParseMoney rejects. |
| Money.AcceptedAmounts | internal/core/domain/money.go:124-137 | A well-formed text is accepted exactly when the amount it denotes is within MaxMoney, with that value, or when reais*100 + cents wraps, with a value outside the limit. |
| Money.WrappedAmountIsAccepted | internal/core/domain/money.go:125-131 | Every text from "92233720368547758.08" to ".99" is accepted as a negative number far outside the limit. |

## Left out

- PrazoPrice.PriceRowCount: leaves a gap of one cent of monthly payment; when instalment plus extra is within half a cent of the exact instalment of m months and the table bears interest, whether it has more than m rows depends on how each month rounds, and no closed condition is given.
- Financiamento.Cronograma: rounding of float64 itself, in `TaxaMensal`, `math.Pow` and the products, is not modelled; NaN and infinity do not arise, and the half-up rounding to the cent is.
- FormaDaTabela.AmountsFitInt64: takes the monthly rate to be at most 1/12, which `FormaDaTabela.MonthlyRateBound` derives from the 0 to 100% check on the yearly rate.
- CadastroDePlano.Cadastrar: the category and the stored texts are not kept, since nothing depends on them.
- CartaoService.CartaoService.RegistrarCompra: takes the date `naData` gives, which is never the zero time; categories are not kept, and of the description only its length matters.
- Transactions in the ledger keep type, value, date and whether they are plan instalments; their descriptions and categories are not modelled.
- LivroVencimentos.DriftedInstalmentIsNeverPaid: is about runs that keep each card's days; a card whose due day is changed can make a date payable, or stop one from being so.
- Lockout.LockDuration: does not model int64 wrap-around of the doubling, possible only for a maximum lock above 2^62 nanoseconds.
- Lockout.WrongChecksAreBounded: supposes, like the other bounds on runs in that file, a store that answers; what holds when calls fail is `LockoutErros.NobodyStaysLockedOut`. Keys stand for their SHA-256 hashes.
- Money.ParseMoney: upper-casing is modelled for ASCII letters; text with any other letter is rejected either way.
- Interleaved calls: the checks and writes of one service call are separate database transactions, and only serial calls are modelled.
- `ParcelamentoRepository.ReplaceWithParcelas` and `Delete` with `preservarAte`, `GetAgenda`, `GetResumo` and category totals are not modelled.
- Plan instalments in the ledger appear only as transactions marked as such; creating them is modelled in `Parcelamento.dfy` alone.
- Time zones and clock hours: dates are calendar dates.
- HTTP, sessions, cookies, cryptography, e-mail, WhatsApp, metrics, configuration and migrations beyond the keys, cascades and scales used.
