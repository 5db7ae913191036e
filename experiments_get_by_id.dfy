/** GET /experiments/{id}: one catalog entry. */
module ExperimentsGetById {
  import opened Wrappers
  import opened Http
  import opened Models
  import opened DocumentStore

  /** `getExperimentByIdHandler`: no auth; a missing experiment, like a failed read, is 404. */
  function GetExperimentById(experiments: seq<AIExperiment>, id: string): (r: HttpResponse<AIExperiment>)
    ensures r.Ok? <==> exists x :: x in experiments && x.id == id
    ensures r.Ok? ==> r.status == 200 && r.body in experiments && r.body.id == id
    ensures r.Fail? ==> r.status == 404
  {
    match ReadExperiment(experiments, id)
    case None => Fail(404, "Experiment not found")
    case Some(x) => Ok(200, x)
  }
}
