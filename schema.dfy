/** The rows the screens receive from the hosted tables, as far as the
    screens use them: whole rows (`select('*')`, and the row an insert
    echoes back) and the column subsets some screens select for their
    drop-down lists. Foreign keys are plain integer columns. */
module Schema {

  /** `roles(rolid, nombrerol)`; also what the teacher and student screens
      select for their role list. */
  datatype Rol = Rol(rolid: int, nombrerol: string)

  /** `docentes(docenteid, nombre, rolid)`. */
  datatype Docente = Docente(docenteid: int, nombre: string, rolid: int)

  /** `docentes` restricted to `docenteid, nombre`. */
  datatype DocenteRef = DocenteRef(docenteid: int, nombre: string)

  /** `estudiantes(estudianteid, nombre, rolid)`. */
  datatype Estudiante = Estudiante(estudianteid: int, nombre: string, rolid: int)

  /** `estudiantes` restricted to `estudianteid, nombre`. */
  datatype EstudianteRef = EstudianteRef(estudianteid: int, nombre: string)

  /** `temas(temaid, titulo, docenteid)`. */
  datatype Tema = Tema(temaid: int, titulo: string, docenteid: int)

  /** `temas` restricted to `temaid, titulo`. */
  datatype TemaRef = TemaRef(temaid: int, titulo: string)

  /** `actividades(actividadid, descripcion, estado, temaid)`. */
  datatype Actividad = Actividad(actividadid: int, descripcion: string, estado: string, temaid: int)

  /** `actividades` restricted to `actividadid, descripcion`. */
  datatype ActividadRef = ActividadRef(actividadid: int, descripcion: string)

  /** `calificaciones(calificacionid, estudianteid, actividadid, puntuacion)`;
      the score is a JavaScript number, kept here as a `real`. */
  datatype Calificacion = Calificacion(calificacionid: int, estudianteid: int, actividadid: int, puntuacion: real)

  /** `tareas(tareaid, observaciones, claseimpartida, actividadpendiente, temaid)`. */
  datatype Tarea = Tarea(tareaid: int, observaciones: string, claseimpartida: bool,
                         actividadpendiente: bool, temaid: int)
}
