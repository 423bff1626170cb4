# Camisas — a verified model of the factory core

Camisas is a Django application for a small T-shirt factory. It keeps a stock of raw
materials (`Insumo`) at a weighted-average cost and a stock of finished variants
(`VariacaoProduto`), with every change logged as a `MovimentoEstoque`. It runs production
orders (`OrdemProducao.processar`) that consume materials according to each variant's
technical sheet (`FichaTecnicaItem`). It sends work to outside seamstresses as shipments
(`Remessa` with `RemessaItem` lines). Receiving a shipment consumes the materials of its
phase (cutting or sewing), credits finished pieces and upserts the contractor's payment
(`PagamentoCostureira`). It also covers order totals, down payments and invoicing
(`Pedido`), expenses paid in instalments (`Despesa`, `ParcelaDespesa`), a timesheet
(`FrequenciaDia`), the validation rules of its forms, and the canonical text and keyed hash
behind its electronic signatures.

The Dafny project follows that structure:

| module | file | what it holds |
|---|---|---|
| `Wrappers` | wrappers.dfy | `Option` and `Result` |
| `Decimal` | decimal.dfy | Python `Decimal` as `real`; `quantize` with ROUND_HALF_EVEN to cents and ten-thousandths; exact sums |
| `Text` | text.dfy | `str.strip`, `lower`, `upper`, `replace`, slicing, `str(int)`, `int(str)`, zero padding |
| `Phase` | phase.dfy | `_resolver_fase_item` |
| `Estoque` | estoque.dfy | material, variant and movement rows as values; `entrada`/`saida`; a run of stock effects that stops at the first shortage |
| `Pedidos` | pedido.dfy | order totals, down payment and final balance, quote totals, the public approval decision, size-collection aggregation; class `Pedido` |
| `Remessas` | remessa.dfy | shipment line arithmetic, status, payment total, receipt plan by phase, chaining, payment toggles |
| `Faturamento` | faturamento.dfy | invoicing stock check and write-back |
| `Catalogo` | catalogo.dfy | SKU derivation and the unique-SKU search; size order |
| `Fabrica` | fabrica.dfy | class `Fabrica`: the tables (maps from id to row) and the append-only movement log, with every state-changing model method and view as a method keeping the log reconciled with the stocks |
| `Despesas` | despesa.dfy | instalment status, the instalment split; class `Despesa` |
| `Frequencia` | frequencia.dfy | timesheet minutes and `HH:MM` formatting |
| `Formularios` | forms.dfy | field cleaners, the shipment-line and instalment formsets, the receipt form |
| `Assinatura` | esig.dfy | `canonical_payload`, `compute_hash`, `make_qr_data_url` |

Amounts are exact decimals (`real`). Every `quantize` of the source appears as
`Decimal.Quantize` with ROUND_HALF_EVEN, the default rounding of Python's decimal module.
The clock ("now", "today"), SHA-256, base64 decoding, PNG encoding and the
availability of the QR library are parameters of the members that need them.

`Fabrica.Valid()` is the invariant the state-changing methods keep. Every material and
variant stock equals its opening stock plus the net of the logged movements for it. The
foreign keys hold: sheets name materials, shipments name contractors and own their
lines, lines name variants, and payments belong to shipments. SKUs and (product, kind)
pairs are unique.

The receipt form's over-return check carries a comment calling it a warning that does not
block. The code adds a form error, which invalidates the form. The model follows the code.

## Model

| member | source | states |
|---|---|---|
| Decimal.RoundHalfEven | camisas/models.py:463 | The result is within half a unit of x, and is even on a tie. |
| Decimal.RoundHalfEvenUnique | camisas/models.py:463 | Any integer within half a unit of x that is even on a tie is the rounded value, so the rounding is fully determined. |
| Decimal.Quantize | camisas/models.py:463 | `quantize` lands on the quantum's grid, within half a quantum of the exact value. |
| Decimal.QuantizeOnGrid | camisas/models.py:934 | A value already on the grid is left unchanged. |
| Decimal.QuantizeIdempotent | camisas/models.py:463 | Quantizing twice is quantizing once. |
| Decimal.OnGridAddSub | camisas/models.py:933-934 | Sums and differences of two-decimal values are two-decimal values. |
| Decimal.SumConcat | camisas/models.py:770 | An exact sum over a concatenation is the sum of the two sums. |
| Text.Strip | camisas/models.py:339 | The result is no longer than the input and has no whitespace at either end. |
| Text.StripPadded | camisas/esig_utils.py:20-21 | Surrounding whitespace never changes the result of `strip()`. |
| Text.StripIdempotent | camisas/models.py:339 | `strip()` is idempotent. |
| Text.Lower | camisas/models.py:339 | `lower()`, with Latin-1 case mapping: each character goes to its lower case and the length is kept. |
| Text.Upper | camisas/models.py:250 | `upper()`, with Latin-1 case mapping: never shorter than its input, and a blank is in the result iff it is in the input. |
| Text.IntToString | camisas/esig_utils.py:22 | `str(i)` is never empty and holds no "\|", so it cannot break the payload's fields. |
| Text.ParseInt | camisas/esig_utils.py:18 | `int(s)`: surrounding whitespace, an optional sign and ASCII digits convert; anything else is a ValueError. |
| Text.NatToStringRoundTrip | camisas/esig_utils.py:19 | Reading back the digits of `str(n)` gives n. |
| Text.NatToStringInjective | camisas/esig_utils.py:19 | Distinct numbers render differently. |
| Text.Pad2RoundTrip | camisas/models.py:1332 | A `:02d` rendering reads back as the number. |
| Phase.LowerIsTecido | camisas/models.py:339 | `lower()` gives "tecido" exactly for the upper/lower-case spellings of the word. |
| Phase.ExplicitPhaseWins | camisas/models.py:336-337 | A non-empty configured phase other than AUTO is returned unchanged. |
| Phase.AutoPhaseByCategory | camisas/models.py:338-339 | With AUTO or nothing configured, the result is CORTE iff the trimmed category spells "tecido" in any letter case, and COSTURA otherwise. |
| Phase.ResolvedPhaseIsCutOrSew | camisas/models.py:327-339 | Every configuration the form offers resolves to CORTE or COSTURA. |
| Phase.PaddedCapitalsAreFabric | camisas/models.py:339 | "  TeCiDo " is consumed at CORTE. |
| Phase.AccentedIsNotFabric | camisas/models.py:339 | "Tecidó" is consumed at COSTURA: there is no accent folding. |
| Phase.ResolverFase | camisas/models.py:334-339 | The resolved phase is the configured one or CORTE or COSTURA, never anything else. |
| Estoque.AposEntrada | camisas/models.py:200-210 | Stock grows by q. When the new stock is positive, the new stock times the new average equals the old value plus q times c. Otherwise the average is kept. |
| Estoque.Falta | camisas/models.py:220-221 | The shortage guard of `saida`: more than the stock on hand cannot leave. |
| Estoque.AposSaida | camisas/models.py:217-222 | Without a shortage, the stock drops by exactly q and stays non-negative, and the average cost is kept. |
| Estoque.MediaPonderadaDeDuasEntradas | camisas/models.py:204-208 | Two receipts into an empty stock give the quantity-weighted mean of their costs. |
| Estoque.MediaEntreAnteriorERecebida | camisas/models.py:204-208 | With a non-negative stock and a positive receipt, the new average lies between the old average and the incoming cost. |
| Estoque.EntradaNegativaDeixaEstoqueNegativo | camisas/models.py:200-209 | `entrada` does not refuse a negative quantity: the stock can go to -5 while the average is kept. |
| Estoque.LiquidoConcat | camisas/models.py:959-976 | The net movement of a target over a concatenated log is the sum of the nets. |
| Estoque.Liquido | camisas/models.py:959-976 | The net quantity a log moved into one material or variant: entries minus exits naming it. Its meaning is stated by `LiquidoConcat`, `ExecutarReconcilia` and `Faturamento.ExpedidoConcilia`. |
| Estoque.Passo | camisas/models.py:217-228 | One effect: an issue is refused on a shortage, otherwise it leaves the stock at the average cost; a credit adds the pieces at the variant's unit cost. Both log one movement. Its properties are stated by `Executar` and `ExecutarEfeito`. |
| Estoque.Executar | camisas/models.py:363-366 | A run of effects keeps the table keys, and a run that did not stop logged one movement per effect. |
| Estoque.ExecutarParaNaFalta | camisas/models.py:219-221 | Once a run has stopped at a shortage, no later effect is applied. |
| Estoque.ExecutarPlano | camisas/models.py:363-366 | The loop applying effects one by one and stopping at the first shortage computes `Executar`. |
| Estoque.ExecutarSoEstoque | camisas/models.py:209-228 | A run, stopped or not, changes only stocks: every other field of every row is as it was. |
| Estoque.SoBaixasMantemVariacoes | camisas/models.py:363-366 | A plan made only of issues leaves the variants unchanged. |
| Estoque.ExecutarEfeito | camisas/models.py:217-228 | A completed run took from each material exactly what the plan requires and credited each variant exactly what the plan credits. |
| Estoque.ExecutarFalhaSseFalta | camisas/models.py:220-221 | With non-negative stocks and issues, a run stops iff some material's total requirement exceeds its stock. |
| Estoque.ExecutarReconcilia | camisas/models.py:209-228 | After a run, every row's stock is its stock before plus the net of the movements the run logged for it, and every logged movement names an existing row. |
| Pedidos.TotalComDescontos | camisas/models.py:457-463 | The gross total times (1 + surcharge/100) times (1 - discount/100), rounded to cents. |
| Pedidos.TotalBruto | camisas/models.py:454-455 | With non-negative prices and quantities, the gross total is non-negative. |
| Pedidos.TotalPago | camisas/models.py:466-468 | With non-negative payments, the amount paid is non-negative. `TotalPagoAppend` states how one payment raises it. |
| Pedidos.Pedido.Total | camisas/models.py:457-463 | The order's `total_com_descontos`, whose meaning is stated by `TotalComDescontos`. |
| Pedidos.Pedido.SaldoRestante | camisas/models.py:470-472 | Total minus the amount paid. `RegistrarSaldoFinal` pays exactly this. |
| Pedidos.PodeDecidir | camisas/views.py:772-773 | A quote can be decided iff its validity date has not passed (none means no limit) and its approval is pending. `DecidirPublico` does nothing otherwise. |
| Pedidos.AssinaturaValida | camisas/views.py:807-817 | A signature is accepted iff it starts with the PNG data-URL prefix and its payload decodes to a non-empty image. `DecidirPublico` refuses an approval otherwise. |
| Pedidos.TotaisOrcamento | camisas/views.py:730-734 | The discount and surcharge are each rounded to cents from the subtotal, and so is the total. |
| Pedidos.TotaisOrcamentoSomam | camisas/views.py:734 | For a subtotal in whole cents the total is exactly subtotal - discount + surcharge. |
| Pedidos.TotaisDivergem | camisas/views.py:876-880 | The quote formula and `total_com_descontos` disagree: 100.00 at 10% and 10% gives 100.00 on the quote and 99.00 on the order. |
| Pedidos.Sinal | camisas/models.py:479 | The down payment is half the total, rounded to cents. |
| Pedidos.SinalEhMetade | camisas/models.py:479 | For a non-negative total the down payment lies between 0 and the total, and twice it is within a cent of the total. |
| Pedidos.TotalPagoAppend | camisas/models.py:467-468 | One more payment raises the amount paid by its value. |
| Pedidos.ChavesSemRepeticao | camisas/views.py:2786-2789 | The grouping keys are exactly the keys somebody has, each listed once. |
| Pedidos.ContagemConta | camisas/views.py:2786-2789 | The `bucket` dict maps exactly those keys to the number of people having them. |
| Pedidos.Agrupar | camisas/views.py:2786-2789 | The counting loop computes the `bucket` dict and its key order. |
| Pedidos.AcumulaQtd | camisas/views.py:2797-2818 | One upsert raises the quantity its key selects by the count and leaves every other key's total alone. |
| Pedidos.NuloInjetivo | camisas/views.py:2797-2802 | Different keys never select the same personalisation line. |
| Pedidos.AplicaChavesQtd | camisas/views.py:2792-2819 | After the upserts of distinct keys, each non-empty key's total grew by its count, and every other key's total is unchanged. |
| Pedidos.ColetaSomaPessoas | camisas/views.py:2769-2821 | After a collection, each non-empty key's total grew by the number of people with that key, and nothing else changed. |
| Pedidos.Pedido.RegistrarSinal | camisas/models.py:474-487 | When something positive was already paid, nothing changes. Otherwise one payment of `Sinal(total)` is appended and the status becomes PROD. |
| Pedidos.Pedido.RegistrarSaldoFinal | camisas/models.py:489-501 | When nothing is owed, nothing changes. Otherwise a payment of exactly the balance is appended, which leaves a zero balance, and the status becomes FAT. |
| Pedidos.Pedido.DecidirPublico | camisas/views.py:772-866 | Outside the decision window (expired, or not PEND), or on approval without a decodable PNG signature: an error and no change. Approval sets APRV and moves ORC to PEN, keeping any other status. Anything else sets REJ. |
| Pedidos.Pedido.AplicarColeta | camisas/views.py:2780-2821 | An order without lines gives 0 and no change. Otherwise the lines of the first item receive the upserts of the non-empty keys, and the number of non-empty keys is returned. |
| Remessas.ComoPago | camisas/views.py:1411-1416 | The result is PAGO. An already-paid row is unchanged. Otherwise its date is now. Amount and parties are kept. |
| Remessas.ComoPendente | camisas/views.py:1423-1428 | The result is PENDENTE. A pending row is unchanged. Otherwise its date is cleared. Amount and parties are kept. |
| Remessas.MarcacoesDePagamento | camisas/views.py:1411-1430 | Marking paid twice is marking paid once, and pending after paid gives a pending row without a date. |
| Remessas.Saldo | camisas/models.py:931-934 | The balance is planned minus returned, rounded to cents. |
| Remessas.SaldoExato | camisas/models.py:931-934 | For two-decimal quantities the balance is exact. |
| Remessas.SaldoPodeSerNegativo | camisas/models.py:931-934 | 10 planned and 12 good pieces leave -2: over-returns are not clipped. |
| Remessas.SaldoTotal | camisas/models.py:770 | The sum of the line balances that `StatusPorItens` compares with zero. |
| Remessas.PrecoBaseParaTipo | camisas/models.py:761-767 | CORTE gives the cutting rate, COSTURA the sewing rate, any other kind the correction rate. |
| Remessas.PrecoUnitarioEfetivo | camisas/models.py:936-937 | A non-zero line price overrides the contractor rate. |
| Remessas.APagar | camisas/models.py:939-940 | Effective price times good pieces, rounded to cents. |
| Remessas.StatusPorItens | camisas/models.py:769-773 | Never CANCELADA. ENVIADA iff there is no receipt date. PARCIAL iff received and pieces are missing. CONCLUIDO iff received and none are missing. |
| Remessas.TotalizarPagamento | camisas/models.py:808-814 | The loop skipping lines without good pieces computes the payment total. |
| Remessas.TotalPagamento | camisas/models.py:808-814 | The payment total: effective price times good pieces over the lines with good pieces. Stated by `TotalizarPagamento`, `TotalPagamentoNaoNegativo` and `TotalPagamentoSemPecasBoas`. |
| Remessas.TotalPagamentoNaoNegativo | camisas/models.py:808-814 | With non-negative rates and prices the payment total is non-negative. |
| Remessas.TotalPagamentoSemPecasBoas | camisas/models.py:809-811 | A shipment without good pieces pays nothing. |
| Remessas.BaixasDaFaseOrigem | camisas/models.py:819-825 | Every issue of a phase plan comes from a sheet line of that phase, for the good pieces. |
| Remessas.BaixaDaFicha | camisas/models.py:823-825 | The issue of one sheet line: its quantity times the good pieces, rounded to four decimals. |
| Remessas.BaixasDaFase | camisas/models.py:819-835 | The issues of the sheet lines whose resolved phase is the given one, in sheet order. Stated by `BaixasDaFaseOrigem` and `BaixasDaFaseCompleta`. |
| Remessas.PlanoDoItem | camisas/models.py:808-847 | One received line: nothing without good pieces; CORTE issues; COSTURA issues then the credit; nothing for CORRECAO. Stated by `RecebimentoCredita`, `CorrecaoNaoMexeNoEstoque` and `ItensSemPecasBoasIgnorados`. |
| Remessas.PlanoRecebimento | camisas/models.py:807-847 | The effects of a receipt, line after line. `RecebimentoAplicavel` shows they name only existing rows. |
| Remessas.ExecucaoRecebimento | camisas/models.py:807-847 | The run of the receipt's effects, tagged with the shipment and contractor; `FinalizarRecebimento` stores it. |
| Remessas.BaixasDaFaseCompleta | camisas/models.py:829-835 | Every sheet line of the phase contributes its issue. |
| Remessas.RecebimentoAplicavel | camisas/models.py:804-847 | A receipt's plan names only existing materials and variants. |
| Remessas.BaixasDaFaseNaoCreditam | camisas/models.py:817-825 | Issuing the materials of a phase credits no variant. |
| Remessas.RecebimentoCredita | camisas/models.py:836-844 | A COSTURA receipt credits each variant with exactly the good pieces of its lines. Any other kind credits nothing. |
| Remessas.CorrecaoNaoMexeNoEstoque | camisas/models.py:846-847 | A correction shipment has no stock effect. |
| Remessas.ItensSemPecasBoasIgnorados | camisas/models.py:809-811 | A line without good pieces adds no effect. |
| Remessas.Sucessora | camisas/models.py:873-880 | The chained header has the same company and product, the given kind, and the override contractor or the original one. It has no weight and no receipt date, and is ENVIADA. |
| Remessas.ItensSucessores | camisas/models.py:881-886 | One line per source line with the same variant. The planned quantity is the source's good pieces, zero included. Buckets and price are 0. |
| Remessas.ProximoTipo | camisas/views.py:1108-1111 | Nothing iff no kind was posted and the shipment is not CORTE. Otherwise the posted kind, else COSTURA after CORTE. |
| Remessas.TipoParaPedido | camisas/views.py:1804-1811 | Always one of the three kinds, and the trimmed posted kind when it is one. |
| Remessas.ItensDoPedido | camisas/views.py:1835-1844 | Every created line has a positive planned quantity, price 0 and empty buckets. |
| Remessas.ItensDoPedidoSaoOsPositivos | camisas/views.py:1837-1844 | The created lines are the order lines with a positive quantity, in order, with their variants and quantities. |
| Remessas.PlanoDoPedido | camisas/views.py:1818-1848 | No lines, or no positive lines, means no shipment. Two positive lines of one variant break the line uniqueness, which is an error. Otherwise the lines are exactly `ItensDoPedido`: non-empty, with distinct variants. |
| Faturamento.Expedida | camisas/views.py:1148-1150 | The stock drops by q, and nothing else changes. |
| Faturamento.Demanda | camisas/views.py:1137-1144 | The pieces all order lines ask of one variant. `DemandaSemRepeticao` shows it is one line's quantity when variants do not repeat. |
| Faturamento.Expedido | camisas/views.py:1147-1150 | The variants after the lines leave one after another: the keys and unit costs are kept. `ExpedidoBaixaDemanda` shows each variant loses exactly its demand. |
| Faturamento.FaltaPorItem | camisas/views.py:1137-1145 | The view's check: some line, on its own, asks for more than its variant's stock. |
| Faturamento.FaltaAgregada | camisas/views.py:1137-1145 | The intended check: the lines of some variant together ask for more than its stock. `FaturarPerdeBaixa` shows the two checks differ. |
| Faturamento.SaidasFaturamento | camisas/views.py:1151-1158 | One "S" movement per line, in order, at the variant's unit cost. |
| Faturamento.ExpedidoBaixaDemanda | camisas/views.py:1147-1150 | Decrementing line by line from the current stock takes from each variant exactly what its lines ask for together. |
| Faturamento.ExpedidoConcilia | camisas/views.py:1147-1158 | After that write-back, each variant's stock is its old stock plus the net of the invoicing movements. |
| Faturamento.ExpedidoSemEstoqueNegativo | camisas/views.py:1137-1150 | When the summed check passes, no invoiced variant goes negative. |
| Faturamento.ExpedidoComoEscrito | camisas/views.py:1147-1150 | The write-back as written, where each line saves its own copy of the variant loaded before the loop, keeps the table's keys. |
| Faturamento.ComoEscritoUltimaVence | camisas/views.py:1147-1150 | As written, a variant no line names is unchanged, and every other variant ends as its last line left it: its opening stock minus that one line's quantity. |
| Faturamento.DemandaSemRepeticao | camisas/views.py:1137-1144 | With distinct variants, a variant's demand is its one line's quantity, and 0 when no line names it. |
| Faturamento.ComoEscritoSemRepeticao | camisas/views.py:1137-1158 | With distinct variants, the per-line check fails iff the summed check does, and the write-back as written equals `Expedido`: the bug needs a repeated variant. |
| Faturamento.FaturarPerdeBaixa | camisas/views.py:1137-1158 | Two 5-piece lines of one variant with stock 8 pass the per-line check. The stock ends at 3 while the log records 10 leaving. |
| Catalogo.Code | camisas/models.py:294-296 | The result holds only ASCII capitals and digits and is no longer than the input. |
| Catalogo.CodeConcat | camisas/models.py:296 | The code of a concatenation is the concatenation of the codes. |
| Catalogo.CodeDeCodigo | camisas/models.py:294-296 | `_code` is idempotent. |
| Catalogo.CodeIgnoraCaixa | camisas/models.py:296 | Letter case never changes the code. |
| Catalogo.SkuBase | camisas/models.py:298-302 | A SKU base is at most 36 characters. |
| Catalogo.SkuBaseCaracteres | camisas/models.py:298-302 | A SKU base holds only capitals, digits, dashes and the id's characters, and never starts with a dash. |
| Catalogo.SkuBaseCompleta | camisas/models.py:298-302 | With a non-empty kind code and a short enough result, the base is exactly id-first 8 of name code-kind code. |
| Catalogo.Candidato | camisas/models.py:309-311 | With a limit, the candidate fits the 40-character column. |
| Catalogo.CandidatoInjetivo | camisas/models.py:309-311 | Distinct numbers give distinct candidates. |
| Catalogo.CandidatoNovo | camisas/models.py:308-311 | A candidate numbered above all tried ones is not among them. |
| Catalogo.GerarSkuUnico | camisas/models.py:304-312 | The search returns the base when free, otherwise the first free candidate numbered 2, 3, ..., and so never a SKU in use. |
| Catalogo.RankTamanho | camisas/models.py:58-61 | Sizes not listed rank last, all alike. A listed size ranks before that. |
| Catalogo.RankSegueOrdem | camisas/models.py:55-61 | Each listed size ranks at its position in the official order. |
| Fabrica.PlanoOP | camisas/models.py:363-366 | One issue per sheet line, of the line's quantity times q rounded to four decimals. |
| Fabrica.PlanoOPAplicavel | camisas/models.py:363-366 | A production order issues only materials its sheet names. |
| Fabrica.CustoOP | camisas/models.py:367-368 | The unit cost is (materials + labour + overhead) / q rounded to four decimals. |
| Fabrica.Recebida | camisas/models.py:799-800 | The receipt date is set if asked and unset, and the status is recomputed from the lines. |
| Fabrica.PagamentoDoRecebimento | camisas/models.py:854-863 | The payment has the total rounded to cents and is PENDENTE, keeping an existing row's date. |
| Fabrica.ConciliaExecucao | camisas/models.py:209-228 | A run written back with its movements keeps the tables reconciled and the variants' identities. |
| Fabrica.ConciliaFaturamento | camisas/views.py:1147-1158 | Invoicing written back with its movements keeps the tables reconciled. |
| Fabrica.ExpedirValores | camisas/views.py:1147-1158 | The invoicing loop on values computes `Expedido` and `SaidasFaturamento`. |
| Fabrica.CriarTipos | camisas/models.py:245-262 | Every listed kind the product lacks gets one new row with a free SKU. The count returned is the number of rows created. |
| Fabrica.TiposEfetivos | camisas/models.py:245 | `tipos or ["Padrão"]` is never empty. |
| Fabrica.BaseDoTipo | camisas/models.py:250 | The SKU base of a kind holds no blank. |
| Fabrica.CriarTipo | camisas/models.py:248-261 | A row is created iff the product lacks the kind. Afterwards it has the kind, keeps every kind it had, and the extension invariant holds. The count of new rows grows by one exactly when one was created. |
| Fabrica.PassoTipos | camisas/models.py:247-261 | One turn of the kinds loop keeps the extension invariant, covers one more kind, and counts a row exactly when one was created. |
| Fabrica.Fabrica.EntradaInsumo | camisas/models.py:200-215 | The material becomes `AposEntrada`, and one "E" movement at the incoming cost is logged. |
| Fabrica.Fabrica.SaidaInsumo | camisas/models.py:217-228 | It fails iff q exceeds the stock, and then nothing changes. Otherwise the material becomes `AposSaida` and one "S" movement at the average cost is logged. |
| Fabrica.Fabrica.Processar | camisas/models.py:361-377 | The tables are the run of the production plan, so a shortage keeps the earlier issues. A shortage or q = 0 (a division by zero in the source) is an error with the variants unchanged. Otherwise the variant gains q pieces at `CustoOP`, which is returned. |
| Fabrica.Fabrica.Produzir | camisas/models.py:369-376 | The variant becomes `Produzida` (new unit cost, q more pieces), one "E" movement at that cost is logged, and the tables stay reconciled. |
| Fabrica.Fabrica.FinalizarRecebimento | camisas/models.py:791-865 | On a shortage nothing changes. Otherwise the receipt plan is applied. With a positive total the payment becomes `PagamentoDoRecebimento`; with a zero total the payments are untouched and none is returned. |
| Fabrica.Fabrica.GerarRemessaPosterior | camisas/models.py:867-887 | A new shipment under a fresh id with the `Sucessora` header and the `ItensSucessores` lines. |
| Fabrica.Fabrica.GerarProxima | camisas/views.py:1102-1118 | Without a next kind, or with an unknown posted contractor, nothing is created. Otherwise the chained shipment is created. |
| Fabrica.Fabrica.MarcarPago | camisas/views.py:1411-1418 | 404 iff the payment does not exist. Otherwise the row becomes `ComoPago`. |
| Fabrica.Fabrica.MarcarPendente | camisas/views.py:1423-1430 | 404 iff the payment does not exist. Otherwise the row becomes `ComoPendente`. |
| Fabrica.Fabrica.GerarRemessaDoPedido | camisas/views.py:1786-1857 | With the kind already chosen by `TipoParaPedido`: an unknown contractor is an error, and so is the `PlanoDoPedido` error. An order without lines, or without positive lines, leaves no shipment. Otherwise there is exactly one new shipment under the next id, holding the planned lines. Every other outcome leaves the shipments, their lines and the id counter as they were. |
| Fabrica.Fabrica.EstoqueSuficiente | camisas/views.py:1137-1144 | True iff no variant's lines together exceed its stock. |
| Fabrica.Fabrica.ExpedirLinhas | camisas/views.py:1147-1158 | The variants become `Expedido`, and the invoicing movements are appended. |
| Fabrica.Fabrica.Expedir | camisas/views.py:1147-1158 | The variant becomes `Expedida` by q, one "S" movement at its unit cost is logged, and the tables stay reconciled. |
| Fabrica.Fabrica.GarantirVariacoesParaTipos | camisas/models.py:240-262 | Existing rows are kept. New rows are empty, at the given price, and of a kind the product lacked. Afterwards the product has every listed kind (or "Padrão"). Returns the number of new rows. |
| Fabrica.Fabrica.CriarVariacao | camisas/views.py:461-467 | Refused iff a field fails its column (`CamposVariacaoValidos`), a value is negative or the kind exists. Otherwise saved under a fresh id with the SKU the search picks. |
| Fabrica.Fabrica.Faturar | camisas/views.py:1134-1163 | Refused with no change iff some variant's lines together exceed its stock. Otherwise the variants become `Expedido`, the movements are logged and the order is FAT. |
| Despesas.StatusPorParcelas | camisas/models.py:1098-1109 | The status `sync_status_from_parcelas` leaves; its meaning is stated by `StatusPorParcelasSignifica`. |
| Despesas.ContarTodas | camisas/models.py:1103-1104 | The count of a status equals the number of instalments iff every instalment has it. |
| Despesas.StatusPorParcelasSignifica | camisas/models.py:1098-1109 | No instalment keeps the status. PAGA iff all are paid. CANC iff all are cancelled. PEN iff some is unpaid and some is not cancelled. |
| Despesas.Quitada | camisas/models.py:1130-1132 | The instalment is PAGA, paid at the given instant or else now, and nothing else changes. |
| Despesas.StatusAposPagar | camisas/models.py:1130-1135 | After paying one instalment the expense is PAGA iff all others were paid, and PEN otherwise. |
| Despesas.Quantidade | camisas/views.py:1485 | An absent or zero quantity means one instalment. |
| Despesas.PrimeiroVencimento | camisas/views.py:1486 | The first due date is the posted one, else the expense's due date, else its issue date. |
| Despesas.DividirSoma | camisas/views.py:1490 | n-1 quotas plus the remainder add up to the total exactly, whatever the quota. |
| Despesas.ValoresComoEscritos | camisas/views.py:1489-1490 | The split as written: n amounts adding up to the total. |
| Despesas.UltimaNegativa | camisas/views.py:1489-1490 | R$ 0.10 in 12 gives a last instalment of -0.01. |
| Despesas.CotaComoEscrita | camisas/views.py:1489 | The view's quota is in cents and within half a cent of total / n. |
| Despesas.CotaComoEscritaNaoNegativa | camisas/views.py:1489 | A non-negative total has a non-negative quota. |
| Despesas.CotaComoEscritaProxima | camisas/views.py:1489 | n quotas are within half a cent per instalment of the total. |
| Despesas.CotaPiso | camisas/views.py:1489 | The quota rounded down is in cents, n quotas do not exceed the total, and the shortfall is under a cent per instalment. |
| Despesas.ValoresPiso | camisas/views.py:1489-1490 | The split with the quota rounded down: n amounts adding up to the total. |
| Despesas.ValoresPisoNaoNegativos | camisas/views.py:1489-1490 | With the quota rounded down, a non-negative total gives non-negative instalments, with the last one the largest. |
| Despesas.ValoresPisoProximos | camisas/views.py:1489-1490 | With the quota rounded down, the last instalment exceeds the first by less than a cent per instalment. |
| Despesas.ValoresCorrigidos | camisas/views.py:1489-1490 | The corrected split: n amounts adding up to the total. |
| Despesas.ValoresCorrigidosConcordam | camisas/views.py:1489-1490 | The corrected split is the view's half-even split iff the total is negative or the view's last instalment is not negative. |
| Despesas.DuzentosEmTres | camisas/views.py:1489-1490 | R$ 200.00 in 3 is split as the view splits it: 66.67, 66.67, 66.66. |
| Despesas.ValoresCorrigidosNaoNegativos | camisas/views.py:1489-1490 | A non-negative total gives no negative instalment. |
| Despesas.ValoresCorrigidosProximos | camisas/views.py:1489-1490 | The last instalment differs from the first by less than a cent per instalment, either way. |
| Despesas.DividirEmCentavos | camisas/views.py:1489-1490 | A total in cents split by a quota in cents gives amounts in cents. |
| Despesas.ValoresCorrigidosEmCentavos | camisas/views.py:1489-1490 | A total in cents splits into amounts in cents. |
| Despesas.Plano | camisas/views.py:1491-1494 | One row per amount: instalment k+1, due 30·k days after the first date, carrying amount k, pending and unpaid. |
| Despesas.PlanoSao | camisas/views.py:1491-1494 | The rows are numbered 1..n without repetition, due 30 days apart, pending, carrying the amounts in order. |
| Despesas.Despesa.SincronizarStatus | camisas/models.py:1098-1109 | The status becomes `StatusPorParcelas`, and nothing else changes. |
| Despesas.Despesa.RecalcularDeParcelas | camisas/models.py:1091-1094 | The total becomes the sum of the instalments, 0 when there is none. |
| Despesas.Despesa.MarcarParcelaPaga | camisas/models.py:1130-1135 | Instalment k becomes `Quitada`, and then the status is synced. |
| Despesas.Despesa.Parcelar | camisas/views.py:1485-1495 | For n > 1 the instalments are the `Plano` of `ValoresCorrigidos` (the view's half-even split unless its last instalment would be negative) and the status is PEN. Otherwise nothing changes. |
| Despesas.Despesa.Atualizar | camisas/views.py:1512-1517 | The posted total, status and instalments are stored. When an instalment exists, the total is their sum and the status follows them. |
| Frequencia.DiffMinutos | camisas/models.py:1280-1288 | The result is in [0, 1440), and 0 when a time is missing. |
| Frequencia.DiffMinutosAvanco | camisas/models.py:1284-1288 | The result is the forward distance modulo a day, in whole minutes. |
| Frequencia.DiffMinutosAlcanca | camisas/models.py:1280-1288 | For whole-minute times, running the clock forward by the result from the start reaches the end. |
| Frequencia.MinutosFechados | camisas/models.py:1290-1292 | Between 0 and two days, and 0 when neither period is closed. |
| Frequencia.MinutosPrevistos | camisas/models.py:1277-1278 | A non-zero override wins; otherwise the employee's daily hours. |
| Frequencia.SaldoMinutos | camisas/models.py:1318-1320 | The balance plus the expected minutes is between 0 and two days, and 0 when nothing is closed. |
| Frequencia.FmtHhmm | camisas/models.py:1328-1332 | At least five characters, with a leading "-" iff the minutes are negative. |
| Frequencia.FmtHhmmRoundTrip | camisas/models.py:1328-1332 | Reading the rendering back gives the minutes. |
| Frequencia.FmtHhmmInjective | camisas/models.py:1328-1332 | Distinct minute counts render differently. |
| Formularios.LimparPercentual | camisas/forms.py:200-210 | Accepted iff empty or in [0, 100]; empty becomes 0 and anything else is returned unchanged. |
| Formularios.LimparNaoNegativo | camisas/forms.py:304-318 | Accepted iff empty or non-negative; empty becomes 0. |
| Formularios.ErrosVariacao | camisas/forms.py:136-142 | A field is in error iff it is present and negative. |
| Formularios.CamposVariacaoValidos | camisas/models.py:272-282 | The columns of a variant row: a non-empty kind of at most 40 characters, stock and price in cents and cost in ten-thousandths, each within its digit limit. |
| Formularios.SalvarVariacao | camisas/forms.py:144-151 | An existing variant keeps its stored SKU whatever was posted. A new one takes the posted data. |
| Formularios.VistosPrimeiras | camisas/forms.py:351-356 | The keys seen before a row are exactly the keys of earlier rows that were not repeats. |
| Formularios.PrimeirasDistintas | camisas/forms.py:351-356 | First occurrences carry distinct keys, and every repeat has an earlier first occurrence. |
| Formularios.LimparItens | camisas/forms.py:326-359 | Per line: deleted and no-data lines are ignored. Empty lines are discarded. A line without a variant gets "variacao". A repeated variant is a duplicate. The rest are accepted. The formset fails iff some line is a duplicate. |
| Formularios.ItensAceitosDistintos | camisas/forms.py:350-359 | Accepted lines have distinct variants, and each duplicate repeats an accepted one. |
| Formularios.LimparParcelas | camisas/forms.py:482-496 | A row is in error iff it is live and repeats the number of an earlier live row. |
| Formularios.ParcelasSemRepeticao | camisas/forms.py:482-496 | Live rows without the error carry distinct numbers, and each erroneous row repeats one of them. |
| Formularios.ZerarVazios | camisas/forms.py:395-399 | Every field is present, empty ones as 0, and others keep their values. |
| Formularios.Negativos | camisas/forms.py:401-404 | Exactly the buckets holding a negative value. |
| Formularios.RecebimentoComoEscrito | camisas/forms.py:392-414 | As written, an existing line with a negative bucket crashes with KeyError. |
| Formularios.RecebimentoNegativoQuebra | camisas/forms.py:402-410 | `qtd_perda = -1` on an existing line ends in the KeyError. |
| Formularios.RecebimentoCorrigidoValido | camisas/forms.py:392-414 | The corrected form has no error iff no bucket is negative and the buckets fit the expected quantity. |
| Formularios.RecebimentoCorrigidoConcorda | camisas/forms.py:392-414 | Whenever the code as written does not crash, it agrees with the corrected form. |
| Formularios.ZerarCampos | camisas/forms.py:395-399 | The fill loop computes `ZerarVazios`. |
| Formularios.MarcarNegativos | camisas/forms.py:401-404 | The check loop computes `Negativos`. |
| Formularios.LimparRecebimento | camisas/forms.py:392-414 | The corrected `clean` computes `RecebimentoCorrigido`. |
| Assinatura.Normalizar | camisas/esig_utils.py:20-21 | None becomes "", and anything else is stripped. |
| Assinatura.Segredo | camisas/esig_utils.py:41 | `secret or settings.SECRET_KEY`: a non-empty given secret wins. Used by `ComputeHash`. |
| Assinatura.CanonicalPayload | camisas/esig_utils.py:11-23 | The payload exists iff the id converts with `int()`. |
| Assinatura.PayloadRoundTrip | camisas/esig_utils.py:19-23 | With no "\|" in role or signer, the payload reads back as id, stripped role, stripped signer and instant. |
| Assinatura.PayloadInjective | camisas/esig_utils.py:19-23 | Equal payloads mean equal id, stripped role, stripped signer and instant. |
| Assinatura.PayloadIgnoraEspacos | camisas/esig_utils.py:20-21 | Whitespace around role or signer never changes the payload. |
| Assinatura.ComputeHash | camisas/esig_utils.py:26-43 | With a payload, the hash is sha(payload + "\|" + secret). Without one, it succeeds iff the id converts. |
| Assinatura.ComputeHashDosCampos | camisas/esig_utils.py:39-43 | Hashing from the fields equals hashing their canonical payload, and a given payload makes the fields irrelevant. |
| Assinatura.ParseIntRecusaBarra | camisas/esig_utils.py:19 | A text holding "\|" never converts with `int()`. |
| Assinatura.HashPosicionalFalha | camisas/esig_utils.py:26-43 | A canonical payload passed as the first positional argument always fails. Passed by keyword, it succeeds. |
| Assinatura.QrDataUrl | camisas/esig_utils.py:46-57 | None iff the text is empty or missing or the library is unavailable. Otherwise the result starts with "data:image/png;base64,". |

## Left out

- I/O, rendering, redirects, messages, CSV export and every list or dashboard view: no logic beyond ORM queries.
- The clock is a parameter ("now", "today", `agora`). Dates are day numbers, and clock times are whole seconds after midnight.
- Frequencia.DiffMinutos: sub-second parts of clock times are not modelled.
- `minutos_trabalhados_ate_agora` and `saldo_minutos_corrente`, because they read the clock.
- Random and clock-based identifiers (`gerar_numero_*`, `gen_approval_token`, the `numero` of orders and shipments) and the IntegrityError retry loops, because they are nondeterministic. Database ids are a counter.
- Catalogo.Code: NFKD decomposition is a library call, so non-ASCII characters are dropped rather than decomposed; accented letters lose their base letter.
- Catalogo.SkuBase: the product name is a parameter; the product table is not part of this model.
- SHA-256, base64 decoding and PNG/QR encoding are uninterpreted function parameters, and the QR library's availability is a boolean.
- The signature image written to storage on approval and its SHA-256 digest, because they are file I/O and an opaque hash.
- camisas/views_esig.py is not part of this model. The `esign_create` view in camisas/views.py is not routed (the URL table imports views_esig), so its positional `compute_hash` call is covered only by the lemma Assinatura.HashPosicionalFalha.
- The 28-digit context of Python's decimal module and the rounding of DecimalField columns on save: amounts are exact, and only explicit `quantize` calls round.
- The DespesaForm and ParcelaFormSet save plumbing: Despesas.Despesa.Atualizar takes the validated values as parameters.
- `Remessa.criar_com_itens_por_produto` and the admin, because they order by fields the variant no longer has.
- Concurrency, row locks and transaction isolation. `@transaction.atomic` appears only as "on error nothing changes" in Fabrica.Fabrica.FinalizarRecebimento and Fabrica.Fabrica.GerarRemessaDoPedido.
- Fabrica.Fabrica.GerarRemessaDoPedido: a shipment header that is created and then deleted or rolled back may use up a database id, while the model's id counter does not advance in those cases.
- Text.Lower: only the Latin-1 case mapping is modelled, not Python's full Unicode tables; other characters are kept as they are.
- Text.Upper: only the Latin-1 case mapping (with "ß" to "SS") is modelled, not Python's full Unicode tables; characters outside Latin-1 are kept as they are, and Fabrica.BaseDoTipo inherits this.
- Text.ParseInt: `int()` also accepts underscores between digits and non-ASCII decimal digits; the model refuses both.
- Fabrica.Fabrica.CriarVariacao: amounts are exact reals, so how the posted text spells them (trailing zeros, digit forms) is not modelled, and the kind arrives already stripped.
- `Remessas.TipoParaPedido`: the choice Python makes with `next(iter(set))` depends on string hashing, so it is a parameter.

## Findings

| source | as written | input that shows it | evidently intended | confidence | as-written member | corrected member |
|---|---|---|---|---|---|---|
| camisas/views.py:1137-1158 | The stock check compares each line with its variant's stock on its own. The write-back then saves one copy of the variant per line, each loaded before the loop. | Variant stock 8 and two order lines of 5 pieces of it: the check passes, the stock ends at 3, and the log records 10 pieces leaving. | Check the summed demand per variant and decrement from the current stock, so the stock matches the log and never goes negative. | high, not executed | Faturamento.FaturarPerdeBaixa | Fabrica.Fabrica.Faturar |
| camisas/views.py:1489-1490 | The quota is rounded half-even, and the last instalment takes the total minus n-1 quotas. | A total of 0.10 in 12 instalments: the quota is 0.01, and the last instalment is -0.01. | Every instalment is non-negative: keep the half-even split, but where it would leave the last instalment negative round the quota down, so the last instalment takes the remainder. | high, not executed | Despesas.UltimaNegativa | Despesas.ValoresCorrigidosNaoNegativos |
| camisas/forms.py:402-410 | `add_error` removes a negative bucket from the cleaned data. The over-return sum then reads that bucket back and raises KeyError. | An existing line with `qtd_perda = -1`. | Report the negative field as a form error. | high, not executed | Formularios.RecebimentoNegativoQuebra | Formularios.LimparRecebimento |
