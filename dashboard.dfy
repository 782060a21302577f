/** The dashboard's figures (components/Dashboard.tsx): per-stage counts and totals. */
module Dashboard {

  import opened Types
  import opened Seqs
  import opened Constants

  /** One bar of the funnel chart: a stage's string value and its number of clients. */
  datatype ChartEntry = ChartEntry(name: string, clients: nat)

  /** `chartData`: one entry per stage, in funnel order. */
  function ChartData(clients: seq<Client>): (r: seq<ChartEntry>)
    ensures |r| == |PROCESS_STAGES_ORDER|
    ensures forall k :: 0 <= k < |r| ==>
      r[k].name == StageValue(PROCESS_STAGES_ORDER[k]) && r[k].clients == |InStage(clients, PROCESS_STAGES_ORDER[k])|
  {
    seq(|PROCESS_STAGES_ORDER|, k requires 0 <= k < |PROCESS_STAGES_ORDER| =>
      ChartEntry(StageValue(PROCESS_STAGES_ORDER[k]), |InStage(clients, PROCESS_STAGES_ORDER[k])|))
  }

  /** `totalClients`: the number of clients, which the chart's bars add up to. */
  function TotalClients(clients: seq<Client>): (r: nat)
    ensures r == SumCounts(ChartData(clients))
  {
    ChartSumsToTotal(clients);
    |clients|
  }

  /** `newLeadsCount`: the clients whose status string is "Nuevo Lead", the first bar of the chart. */
  function NewLeadsCount(clients: seq<Client>): (r: nat)
    ensures r == |InStage(clients, NewLead)| == ChartData(clients)[0].clients
  {
    FilterAgrees(clients, (c: Client) => StageValue(c.status) == "Nuevo Lead", (c: Client) => c.status == NewLead);
    |Filter(clients, (c: Client) => StageValue(c.status) == "Nuevo Lead")|
  }

  /** `completedCount`: the clients whose status string is "Completado", the last bar of the chart. */
  function CompletedCount(clients: seq<Client>): (r: nat)
    ensures r == |InStage(clients, Completed)| == ChartData(clients)[5].clients
  {
    FilterAgrees(clients, (c: Client) => StageValue(c.status) == "Completado", (c: Client) => c.status == Completed);
    |Filter(clients, (c: Client) => StageValue(c.status) == "Completado")|
  }

  /** The sum of the bars. */
  function SumCounts(entries: seq<ChartEntry>): nat
  {
    if |entries| == 0 then 0 else entries[0].clients + SumCounts(entries[1..])
  }

  /** The bars add up to the total number of clients. */
  lemma ChartSumsToTotal(clients: seq<Client>)
    ensures SumCounts(ChartData(clients)) == |clients|
  {
    var d := ChartData(clients);
    assert SumCounts(d[6..]) == 0;
    assert SumCounts(d[5..]) == d[5].clients by { assert d[5..][1..] == d[6..]; }
    assert SumCounts(d[4..]) == d[4].clients + SumCounts(d[5..]) by { assert d[4..][1..] == d[5..]; }
    assert SumCounts(d[3..]) == d[3].clients + SumCounts(d[4..]) by { assert d[3..][1..] == d[4..]; }
    assert SumCounts(d[2..]) == d[2].clients + SumCounts(d[3..]) by { assert d[2..][1..] == d[3..]; }
    assert SumCounts(d[1..]) == d[1].clients + SumCounts(d[2..]) by { assert d[1..][1..] == d[2..]; }
    StageCountsSum(clients);
  }
}
