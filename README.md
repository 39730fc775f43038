# NIDS live-traffic dashboard: aggregation core

The dashboard server of this network-intrusion detector simulates "live"
traffic. Each simulated packet is a row picked at random from a fixed pool of
held-out feature rows and scored by a trained classifier. The server keeps
two counters (packets simulated, threats detected), a newest-first log of the
50 most recent alerts and a run flag. Every stats poll first simulates a burst
of one to five packets when the flag is set. It then reports the counters
and two threat tiers: a cumulative tier on the threat count and a rate-based
tier on the share of attacks. Start and stop requests set the flag. At
startup the server runs 20 simulations before it serves requests.

The model has three modules:

- `ThreatLevels` (levels.dfy): alert severity, the two-decimal score and the
  two threat tiers, as functions with their properties.
- `Traffic` (traffic.dfy): the aggregation state as a value (`State`). One
  simulated packet is the transition `Step`; a run of packets is `Steps`.
  The lemmas here prove the counting, the invariant, the eviction and the
  window properties.
- `App` (app.dfy): class `Dashboard`, whose fields are the
  counters, the log and the flag. Its methods are the request handlers. The
  simulator and the stats poll are proved against `Step`/`Steps`; the alert
  feed against the log field; start and stop against an update of the flag
  alone. The module also holds the startup pre-warm and four client
  scenarios (`StartTwice`, `StopTwice`, `AllAttackRun`, `StoppedPolls`).

External pieces become parameters. The sample pool and the classifier are
the constant fields `pool: seq<Row>` and `classify: Row -> Verdict`. A
`Verdict` is the predicted label plus the attack-class probability, a
`real`. The random row index is the `draw` argument; its range is that of
`random.randint(0, len - 1)`. The random burst size of a poll is the length
of its `burst` argument, 1 to 5, and its entries are the row indices drawn in
that burst. An empty pool makes `random.randint(0, -1)` raise before any
state changes. The model returns this as `Failure(EmptyPool)`, with the
state unchanged.

## Model

| member | source | states |
|---|---|---|
| ThreatLevels.ScoreHundredths | app.py:67 | the score is the probability rounded to the nearest hundredth, with an exact tie going to the even neighbour; for a probability in [0,1] it is between 0 and 100 hundredths |
| ThreatLevels.SeverityAgreesWithScore | app.py:66-67 | a "High" alert (probability above the threshold 0.8) never shows a score below 0.80, and a "Medium" alert never shows one above 0.80 |
| ThreatLevels.SeverityAtThreshold | app.py:66-67 | a probability equal to the double 0.8 (40 of 50 tree votes) is "Medium" with score 0.80, because `0.8 > 0.8` is false; 0.81 is "High" |
| ThreatLevels.ThreatLevelOf | app.py:91 | the cumulative tier is "Normal" exactly for 0–20 threats, "Elevated" exactly for 21–100 and "Critical" exactly above 100 |
| ThreatLevels.ThreatLevelMonotone | app.py:91 | more threats never give a lower tier |
| ThreatLevels.RateDenominator | app.py:92 | the rate's denominator `TOTAL or 1` is 1 when nothing has been sampled and the total otherwise, so it is at least 1 and the division is always defined |
| ThreatLevels.RateLevelIntegerForm | app.py:92 | the rate tier is "Normal" exactly when ten times the threat count is below the denominator, and it is "Normal" when nothing has been sampled |
| ThreatLevels.TiersCanDisagree | app.py:91-92 | both tiers can hold at once with different verdicts: "Critical" by count and "Normal" by rate for 101 threats in 2000 packets |
| Traffic.Window | app.py:72 | truncation keeps a prefix of the log of length min(len, 50) |
| Traffic.InitialInv | app.py:23-26 | the initial state (zero counters, empty log, running) satisfies the invariant |
| Traffic.StepEffect | app.py:47-72 | a packet adds exactly 1 to the total; it adds 1 to the threat count exactly when the prediction is 1, and otherwise 0. The flag is kept. On an attack, the log is the new alert followed by the first 49 old entries (all of them if fewer). The new alert has id = new total, severity "High" iff the probability exceeds the exact value of the double 0.8 (else "Medium"), the rounded score and type "Malicious Activity". On a non-attack, the log is unchanged |
| Traffic.StepPreservesInv | app.py:47-72 | a packet keeps the invariant: threats ≤ total, log length ≤ 50 and ≤ threats, ids in 1..total, ids strictly decreasing from newest to oldest, alerts well formed |
| Traffic.IdsUnique | app.py:64-72 | in a state that satisfies the invariant, no two logged alerts share an id |
| Traffic.StepEvictsOldest | app.py:71-72 | an attack on a full log keeps 50 entries and evicts the oldest alert |
| Traffic.StepsPreservesInv | app.py:28-74 | any run of packets keeps the invariant |
| Traffic.StepsCounts | app.py:47-51 | n packets add exactly n to the total and the number of attacks among them to the threat count; the flag is unchanged |
| Traffic.CreatedCount | app.py:50-71 | the number of alerts ever created equals the number of attacks, so the threat counter goes on counting past eviction |
| Traffic.WindowAbsorbs | app.py:71-72 | truncating before or after prepending one alert gives the same log |
| Traffic.StepsWindow | app.py:71-72 | after any run of packets, the log is the newest 50 alerts ever created (all of them if fewer), newest first |
| Traffic.CreatedUniformScore | app.py:64-70 | when every attack verdict has probability p, every created alert has the score and severity of p |
| Traffic.UniformScoreRun | app.py:28-74 | from the initial state, when every attack row has probability p, the threat count is the number of attack draws and every logged alert has the score and severity of p |
| Traffic.ThreatLevelNeverDrops | app.py:91 | simulating packets never lowers the cumulative tier |
| Traffic.AllAttackScenario | app.py:28-74 | three packets of a row classified as an attack at 0.95 give total 3, threats 3 and the log [3, 2, 1], all "High" with score 0.95 |
| App.Dashboard.constructor | app.py:23-26 | the module-level initial state: counters 0, empty log, flag set; it satisfies the invariant |
| App.Dashboard.SimulateTraffic | app.py:28-74 | with an empty pool: fails, state unchanged. Otherwise: the new state is `Step` of the old one on the drawn row's verdict; it returns whether the row is an attack and keeps the invariant |
| App.Dashboard.GetStats | app.py:81-95 | when stopped, no state changes. When running with a non-empty pool, the state becomes `Steps` over the burst's verdicts and the total rises by exactly the burst size (1–5). When running with an empty pool, it fails with the state unchanged. The reply carries the counters, both tiers and the flag of the resulting state |
| App.Dashboard.GetAlerts | app.py:97-99 | returns the log unchanged: at most 50 alerts, ids strictly decreasing |
| App.Dashboard.StartSimulation | app.py:101-105 | sets the flag only, leaves counters and log as they were, replies ("started", true) |
| App.Dashboard.StopSimulation | app.py:107-111 | clears the flag only, leaves counters and log as they were, replies ("stopped", false) |
| App.StartTwice | app.py:101-105 | starting twice gives the same reply twice and the same state as starting once |
| App.StopTwice | app.py:107-111 | stopping twice gives the same reply twice and the same state as stopping once |
| App.Startup | app.py:113-117 | the pre-warm runs `Steps` over 20 drawn verdicts from the initial state, giving total 20; with an empty pool it fails and no server comes up |
| App.AllAttackRun | app.py:28-74 | the all-attack scenario driven through the class: the alert feed after three simulations is [3, 2, 1], "High", score 0.95 |
| App.StoppedPolls | app.py:81-95 | after stop, five stats polls all report total 0 and the flag cleared |

## Left out

- nids.py is not part of this model: the CSV loading, label encoding, forest training and the evaluation report. The classifier is the abstract `classify` and the pool the abstract `pool`.
- static/dashboard.js is not part of this model: the page, the charts and the polling timer.
- Flask plumbing is left out: routing, `jsonify`, `render_template`, the index page and `app.run`. Replies are datatypes (`Stats`, `ControlReply`, the alert sequence); the tier datatypes' `Label` gives their JSON strings.
- The alert's "timestamp" is wall-clock time, so `Alert` has no timestamp field.
- Randomness: the row index and the burst size are arguments constrained to the ranges `random.randint` produces. Their distribution is not modelled.
- Floating point: probabilities and the attack rate are exact reals; a probability stands for the exact value of the double the classifier returns. The severity threshold is the exact value of the double 0.8, so a probability equal to that double is "Medium" as in the program. The rate threshold 0.1 is the exact decimal, with the rate compared by exact division; the program divides in floating point, and a quotient that float rounding moves across 0.1 is not modelled. On a float, `float(f"{proba:.2f}")` yields the nearest double to the decimal; the model yields the exact hundredth.
- Concurrency: each handler is one atomic step on the shared state. Overlapping requests under a threaded server are not modelled.
- A classifier failure (an exception from `predict` or `predict_proba`) is not modelled: `classify` is total.
