/** The job descriptor builder: from a job name, a source URL, a destination tag and
    the upload settings, the batch Job that downloads the disk image into a shared
    scratch volume and then builds and pushes the container disk image. */
module JobSpec {
  import opened Kube

  /** The ownership label stamped on every job the tool creates. */
  const AppLabelKey := "app.kubernetes.io/name"
  const AppLabelValue := "cdtool"

  const SaveVolume := "saveplace"
  const StorageVolume := "varlibcontainers"
  const SavePath := "/save"
  const StoragePath := "/var/lib/containers"

  /** The upload settings the builder reads: the target namespace and the two
      container images. */
  datatype UploadConfig = UploadConfig(namespace: string, downloadImage: string, buildImage: string)

  /** The settings used when the operator gives none. */
  const DefaultUpload := UploadConfig("default", "busybox:stable", "ghcr.io/hujun-open/cdtool:latest")

  /** Kubernetes names of the two scratch volumes of a built job. */
  predicate IsScratchVolume(name: string) {
    name == SaveVolume || name == StorageVolume
  }

  /** True when `j` carries exactly the tool's ownership label. */
  predicate OwnedByTool(j: Job) {
    j.meta.labels == map[AppLabelKey := AppLabelValue]
  }

  /** True when container `c` mounts the volume `vol` at `path`. */
  predicate Mounts(c: Container, vol: string, path: string) {
    exists k :: 0 <= k < |c.volumeMounts| && c.volumeMounts[k] == VolumeMount(vol, path)
  }

  /** True when every volume mount of every container of `p` names a volume of `p`. */
  predicate MountsResolve(p: PodSpec) {
    (forall c, m :: c in p.initContainers + p.containers && m in c.volumeMounts ==>
      exists v :: v in p.volumes && v.name == m.name)
  }

  /** The init container: fetches the URL held in its environment into the
      scratch volume. */
  function DownloadContainer(cfg: UploadConfig, url: string): Container {
    Container(
      "download",
      cfg.downloadImage,
      ["sh", "-c", "wget $URL -O /save/disk.img"],
      [EnvVar("URL", url)],
      [VolumeMount(SaveVolume, SavePath)],
      None)
  }

  /** The main container: builds the image from the fetched file and pushes it
      under the tag held in its environment; it runs privileged. */
  function BuildContainer(cfg: UploadConfig, tag: string): Container {
    Container(
      "buildandpush",
      cfg.buildImage,
      ["sh", "-c", "/buildandpush.sh"],
      [EnvVar("TAG", tag), EnvVar("INSECURE", "true")],
      [VolumeMount(SaveVolume, SavePath), VolumeMount(StorageVolume, StoragePath)],
      Some(SecurityContext(Some(true))))
  }

  /** The job descriptor: metadata with the ownership label, the download stage
      as the only init container, the build stage as the only container, two
      emptyDir scratch volumes, and no restarts. */
  function NewJob(cfg: UploadConfig, name: string, url: string, tag: string): (j: Job)
    ensures j.meta.name == name && j.meta.namespace == cfg.namespace
    ensures OwnedByTool(j)
    ensures |j.template.initContainers| == 1 && j.template.initContainers[0].name == "download"
    ensures |j.template.containers| == 1 && j.template.containers[0].name == "buildandpush"
    ensures j.template.initContainers[0].image == cfg.downloadImage
    ensures j.template.containers[0].image == cfg.buildImage
    ensures j.template.initContainers[0].command == ["sh", "-c", "wget $URL -O /save/disk.img"]
    ensures j.template.containers[0].command == ["sh", "-c", "/buildandpush.sh"]
    ensures j.template.initContainers[0].volumeMounts == [VolumeMount(SaveVolume, SavePath)]
    ensures j.template.containers[0].volumeMounts ==
      [VolumeMount(SaveVolume, SavePath), VolumeMount(StorageVolume, StoragePath)]
    ensures Mounts(j.template.initContainers[0], SaveVolume, SavePath)
    ensures Mounts(j.template.containers[0], SaveVolume, SavePath)
    ensures j.template.initContainers[0].env == [EnvVar("URL", url)]
    ensures j.template.containers[0].env == [EnvVar("TAG", tag), EnvVar("INSECURE", "true")]
    ensures j.template.initContainers[0].securityContext == None
    ensures j.template.containers[0].securityContext == Some(SecurityContext(Some(true)))
    ensures j.template.volumes == [Volume(StorageVolume, EmptyDir), Volume(SaveVolume, EmptyDir)]
    ensures forall v :: v in j.template.volumes ==> IsScratchVolume(v.name) && v.source == EmptyDir
    ensures MountsResolve(j.template)
    ensures j.template.restartPolicy == Never
    ensures j.status == NoStatus
  {
    var meta := ObjectMeta(name, cfg.namespace, map[AppLabelKey := AppLabelValue]);
    var empty := PodSpec([], [], [], Unset);
    var withInit := empty.(initContainers := empty.initContainers + [DownloadContainer(cfg, url)]);
    var withBuild := withInit.(containers := withInit.containers + [BuildContainer(cfg, tag)]);
    var withVolumes := withBuild.(volumes := withBuild.volumes
                                   + [Volume(StorageVolume, EmptyDir), Volume(SaveVolume, EmptyDir)]);
    var spec := withVolumes.(restartPolicy := Never);
    assert Mounts(spec.initContainers[0], SaveVolume, SavePath) by {
      assert spec.initContainers[0].volumeMounts[0] == VolumeMount(SaveVolume, SavePath);
    }
    assert Mounts(spec.containers[0], SaveVolume, SavePath) by {
      assert spec.containers[0].volumeMounts[0] == VolumeMount(SaveVolume, SavePath);
    }
    assert MountsResolve(spec) by {
      forall c, m | c in spec.initContainers + spec.containers && m in c.volumeMounts
        ensures exists v :: v in spec.volumes && v.name == m.name
      {
        if m.name == SaveVolume {
          assert spec.volumes[1].name == m.name;
        } else {
          assert spec.volumes[0].name == m.name;
        }
      }
    }
    Job(meta, spec, NoStatus)
  }

  /** The two stages share nothing but the scratch volume: the only volume that
      both containers mount is `saveplace`. */
  lemma StagesShareOnlySaveVolume(cfg: UploadConfig, name: string, url: string, tag: string, vol: string)
    requires var j := NewJob(cfg, name, url, tag);
      (exists p :: Mounts(j.template.initContainers[0], vol, p)) &&
      (exists p :: Mounts(j.template.containers[0], vol, p))
    ensures vol == SaveVolume
  {
    var j := NewJob(cfg, name, url, tag);
    var p :| Mounts(j.template.initContainers[0], vol, p);
    var k :| 0 <= k < |j.template.initContainers[0].volumeMounts| &&
             j.template.initContainers[0].volumeMounts[k] == VolumeMount(vol, p);
    assert k == 0;
  }

  /** With the default settings, a job lands in namespace "default" and its
      stages run the default images. */
  lemma DefaultJobImages(name: string, url: string, tag: string)
    ensures var j := NewJob(DefaultUpload, name, url, tag);
      j.meta.namespace == "default" &&
      j.template.initContainers[0].image == "busybox:stable" &&
      j.template.containers[0].image == "ghcr.io/hujun-open/cdtool:latest"
  {
  }
}
