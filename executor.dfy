/**
 * The remote executor (get_emr_master_dns and run_spark_sql_on_emr): look the cluster up,
 * refuse unless it is WAITING or RUNNING, and then either report a dry run or run spark-sql
 * on the master node over ssh, success being an exit status of 0.
 */
module Executor {
  import opened Wrappers
  import opened Strings

  /** What describe_cluster reports: the lifecycle state and the master node's public DNS name. */
  datatype ClusterStatus = ClusterStatus(state: string, masterPublicDnsName: string)

  /**
   * The EMR service and the ssh transport as an oracle: `describe(n)` answers the n-th
   * describe_cluster call of a run (counting from 0), and `exitCode(n, argv)` is the exit
   * status of the ssh process started with arguments `argv` during the n-th executor call.
   */
  datatype Emr = Emr(describe: nat -> ClusterStatus, exitCode: (nat, seq<string>) -> int)

  /** The settings the executor reads: EMR_CLUSTER_ID, EMR_PEM_PATH and S3_BUCKET. */
  datatype EmrSettings = EmrSettings(clusterId: string, pemPath: string, bucket: string)

  /** The RuntimeError raised for a cluster that cannot take work. */
  datatype ClusterNotReady = ClusterNotReady(clusterId: string, state: string) {
    /** The message names the cluster right after "EMR cluster " and ends with the state. */
    function Message(): (m: string)
      ensures 12 + |clusterId| <= |m| && m[..12] == "EMR cluster " && m[12..12 + |clusterId|] == clusterId
      ensures |state| <= |m| && m[|m| - |state|..] == state
    {
      var m := "EMR cluster " + clusterId + " is not ready. State: " + state;
      assert m == "EMR cluster " + (clusterId + (" is not ready. State: " + state));
      assert m == ("EMR cluster " + clusterId + " is not ready. State: ") + state;
      m
    }
  }

  /** The two lifecycle states in which the cluster accepts statements. */
  predicate IsReady(state: string) {
    state == "WAITING" || state == "RUNNING"
  }

  /** get_emr_master_dns: the master's address when the cluster is ready, otherwise the error. */
  function MasterDns(settings: EmrSettings, status: ClusterStatus): (r: Result<string, ClusterNotReady>)
    ensures r.Ok? <==> IsReady(status.state)
    ensures r.Ok? ==> r.value == status.masterPublicDnsName
    ensures r.Err? ==> r.error.state == status.state && r.error.clusterId == settings.clusterId
  {
    if !IsReady(status.state) then Err(ClusterNotReady(settings.clusterId, status.state))
    else Ok(status.masterPublicDnsName)
  }

  const SPARK_SQL_HEAD: string :=
    "spark-sql \\\n"
    + "        --conf spark.sql.catalog.glue_catalog=org.apache.iceberg.spark.SparkCatalog \\\n"
    + "        --conf spark.sql.catalog.glue_catalog.warehouse=s3://"
  const SPARK_SQL_MIDDLE: string :=
    "/warehouse \\\n"
    + "        --conf spark.sql.catalog.glue_catalog.catalog-impl=org.apache.iceberg.aws.glue.GlueCatalog \\\n"
    + "        --conf spark.sql.catalog.glue_catalog.io-impl=org.apache.iceberg.aws.s3.S3FileIO \\\n"
    + "        --conf spark.sql.extensions=org.apache.iceberg.spark.extensions.IcebergSparkSessionExtensions \\\n"
    + "        -e \""
  const SPARK_SQL_TAIL: string := "\"\n    "

  /** The spark-sql command line run on the master node, the statement quoted after `-e`. */
  function SparkSqlCommand(bucket: string, sql: string): string {
    SPARK_SQL_HEAD + bucket + SPARK_SQL_MIDDLE + sql + SPARK_SQL_TAIL
  }

  /** The command line's text up to the statement. */
  function CommandUpToStatement(bucket: string): string {
    SPARK_SQL_HEAD + bucket + SPARK_SQL_MIDDLE
  }

  /** The command carries the statement verbatim, right after its fixed options. */
  lemma SparkSqlCommandCarriesStatement(bucket: string, sql: string)
    ensures var cmd := SparkSqlCommand(bucket, sql);
            var k := |CommandUpToStatement(bucket)|;
            k + |sql| <= |cmd| && cmd[k..k + |sql|] == sql
  {
    var pre := CommandUpToStatement(bucket);
    assert SparkSqlCommand(bucket, sql) == pre + sql + SPARK_SQL_TAIL;
  }

  /** The argument vector of the ssh process. */
  function SshArgv(settings: EmrSettings, host: string, sql: string): seq<string> {
    ["ssh", "-i", settings.pemPath, "-o", "StrictHostKeyChecking=no", "hadoop@" + host,
     SparkSqlCommand(settings.bucket, sql)]
  }

  /** The outcome of one executor call: its result, or the error it raised, and the ssh processes it started. */
  datatype Execution = Execution(result: Result<bool, ClusterNotReady>, ssh: seq<seq<string>>)

  /** run_spark_sql_on_emr, as the n-th executor call of the run. */
  function RunSparkSql(settings: EmrSettings, emr: Emr, n: nat, sql: string, dryRun: bool): (x: Execution)
    ensures |x.ssh| <= 1
    ensures x.result.Err? || dryRun ==> x.ssh == []
  {
    match MasterDns(settings, emr.describe(n))
    case Err(e) => Execution(Err(e), [])
    case Ok(host) =>
      if dryRun then Execution(Ok(true), [])
      else
        var argv := SshArgv(settings, host, sql);
        Execution(Ok(emr.exitCode(n, argv) == 0), [argv])
  }

  /**
   * The executor's contract: the readiness check comes first, dry run included, and a cluster
   * in any state but WAITING or RUNNING raises with no ssh process started; a dry run then
   * succeeds without ssh; otherwise exactly one ssh process runs the statement on the master
   * node, and the call succeeds exactly when that process exits with 0.
   */
  lemma RunSparkSqlContract(settings: EmrSettings, emr: Emr, n: nat, sql: string, dryRun: bool)
    ensures var x := RunSparkSql(settings, emr, n, sql, dryRun);
            var status := emr.describe(n);
            (!IsReady(status.state) ==> x.result == Err(ClusterNotReady(settings.clusterId, status.state)) && x.ssh == [])
            && (IsReady(status.state) && dryRun ==> x.result == Ok(true) && x.ssh == [])
            && (IsReady(status.state) && !dryRun ==>
                  |x.ssh| == 1 && x.ssh[0][5] == "hadoop@" + status.masterPublicDnsName
                  && x.ssh[0][6] == SparkSqlCommand(settings.bucket, sql)
                  && x.result == Ok(emr.exitCode(n, x.ssh[0]) == 0))
  {
  }

  /** Whatever the cluster and the statement, a dry run never starts ssh. */
  lemma DryRunStartsNoSsh(settings: EmrSettings, emr: Emr, n: nat, sql: string)
    ensures RunSparkSql(settings, emr, n, sql, true).ssh == []
    ensures RunSparkSql(settings, emr, n, sql, true).result.Ok? ==> RunSparkSql(settings, emr, n, sql, true).result.value
  {
  }
}
