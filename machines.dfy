/** The machines page: who may start a new installation, and the machine
    list, which no role narrows. */
module Machines {
  import opened Types
  import opened Search
  import Seqs

  /** Starting a new installation is for the application and company admins. */
  function CanAddMachine(role: Option<Role>): (b: bool)
    ensures b <==> role.Some? && (role.value == ApplicationAdmin || role.value == CompanyAdmin)
  {
    role == Some(ApplicationAdmin) || role == Some(CompanyAdmin)
  }

  /** The "New Installation" button: enabled only with the capability, and it
      leads to the installation form. */
  function NewInstallationTarget(role: Option<Role>): (target: Option<string>)
    ensures target.Some? <==> CanAddMachine(role)
    ensures target.Some? ==> target.value == "/machine-installation"
  {
    if CanAddMachine(role) then Some("/machine-installation") else None
  }

  /** Search over model, serial number, or a non-empty location. */
  predicate MachineSearchMatches(m: Machine, term: string) {
    Matches(m.model, term) || Matches(m.serialNumber, term)
    || (m.location.Some? && m.location.value != "" && Matches(m.location.value, term))
  }

  predicate MachineMatches(m: Machine, term: string, statusFilter: Option<string>) {
    MachineSearchMatches(m, term) && StatusPasses(statusFilter, MachineStatusName(m.status))
  }

  /** The list takes no user: no role and no id can change what it shows. */
  function FilteredMachines(machines: seq<Machine>, term: string, statusFilter: Option<string>): (r: seq<Machine>)
    ensures |r| <= |machines|
    ensures forall i :: 0 <= i < |r| ==> MachineMatches(r[i], term, statusFilter)
  {
    Seqs.Filter(m => MachineMatches(m, term, statusFilter), machines)
  }

  /** A machine is listed exactly when it is in the input, matches the
      search and passes the status filter. */
  lemma FilteredMachinesMembers(machines: seq<Machine>, term: string, statusFilter: Option<string>, m: Machine)
    ensures m in FilteredMachines(machines, term, statusFilter) <==>
            m in machines && MachineSearchMatches(m, term) && StatusPasses(statusFilter, MachineStatusName(m.status))
    ensures Seqs.IsSubsequence(FilteredMachines(machines, term, statusFilter), machines)
  {
    Seqs.FilterMembers(m => MachineMatches(m, term, statusFilter), machines, m);
    Seqs.FilterIsSubsequence(m => MachineMatches(m, term, statusFilter), machines);
  }

  /** A machine without a location can be found only by model or serial. */
  lemma NoLocationSearch(m: Machine, term: string)
    requires m.location.None?
    ensures MachineSearchMatches(m, term) <==> Matches(m.model, term) || Matches(m.serialNumber, term)
  {
  }

  /** A status filter naming a status keeps exactly the machines in it. */
  lemma StatusFilterSelectsStatus(m: Machine, s: MachineStatus)
    ensures StatusPasses(Some(MachineStatusName(s)), MachineStatusName(m.status)) <==> m.status == s
  {
    StatusNamesInjective(m.status, s, TaskStatus.Pending, TaskStatus.Pending, Open, Open);
  }

  /** An empty search with no status filter lists every machine, in order. */
  lemma UnfilteredMachineList(machines: seq<Machine>)
    ensures FilteredMachines(machines, "", None) == machines
  {
    forall i | 0 <= i < |machines|
      ensures MachineMatches(machines[i], "", None)
    {
      EmptyTermMatches(machines[i].model);
    }
    Seqs.FilterKeepsAll(m => MachineMatches(m, "", None), machines);
  }
}
